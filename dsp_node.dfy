/**
 * The parameter layer shared by every node of the graph: parameter
 * inputs, modulator lists, the fold of modulator values into a
 * parameter's effective value, and the saved record of modulation
 * strategies that differ from their defaults.
 *
 * A modulator is another node; what its `getValue` returns is given as a
 * map from node identities to values (a node without a `getValue`
 * function has no key). The `onChange` callback belongs to the concrete
 * node, so the model records each call in `changes` instead of running it.
 */
module DspNode {
  import opened JsValues
  import opened Lists

  type NodeId = nat

  /**
   * A parameter record. An empty caption (the `label` field) stands for
   * a missing one; `min`, `max`, `step`, `scale` and `power` are the
   * slider's settings.
   */
  datatype Param = Param(
    caption: string,
    min: Val,
    max: Val,
    step: Val,
    scale: Val,
    power: Val,
    value: Val,
    defaultValue: Val,
    modulationStrategy: Val,
    defaultModulationStrategy: Val,
    effectiveValue: Val,
    hasOnChange: bool)

  /** One entry of a modulator list; `node` is None for a null entry or an entry without a node. */
  datatype Entry = Entry(node: Option<NodeId>, mode: Val)

  /** A modulator that passed the filter: its value and its resolved mode. */
  datatype Mod = Mod(value: real, mode: Val)

  datatype ParamInput = ParamInput(name: string, id: nat, paramIndex: nat)

  /** One call `param.onChange(effective, { fromAutomation })`. */
  datatype Change = Change(index: nat, effective: Val, fromAutomation: bool)

  /** `x || fallback` */
  function Or(x: Val, fallback: Val): (r: Val)
    ensures Truthy(x) ==> r == x
    ensures !Truthy(x) ==> r == fallback
  {
    if Truthy(x) then x else fallback
  }

  const Multiply: Val := Str("multiply")
  const Override: Val := Str("override")
  const AddMode: Val := Str("add")

  // ---------------------------------------------------------------------
  // Filtering the modulator list

  /** The mapping step of the filter: null unless the node reports a finite number. */
  function Resolve(e: Entry, values: map<NodeId, Val>, strategy: Val): (r: Option<Mod>)
    ensures r.Some? <==> (e.node.Some? && e.node.value in values
                          && values[e.node.value].Number? && values[e.node.value].n.Fin?)
    ensures r.Some? ==> (r.value.value == values[e.node.value].n.v
                         && r.value.mode == Or(Or(e.mode, strategy), Multiply))
  {
    if e.node.None? || e.node.value !in values then None
    else
      var v := values[e.node.value];
      if v.Number? && v.n.Fin? then Some(Mod(v.n.v, Or(Or(e.mode, strategy), Multiply)))
      else None
  }

  /** `mods.map(...).filter(Boolean)` */
  function ModEntries(mods: seq<Entry>, values: map<NodeId, Val>, strategy: Val): (r: seq<Mod>)
    ensures |r| <= |mods|
    decreases |mods|
  {
    if |mods| == 0 then []
    else
      var rest := ModEntries(mods[..|mods| - 1], values, strategy);
      match Resolve(mods[|mods| - 1], values, strategy)
      case Some(m) => rest + [m]
      case None => rest
  }

  /** Filtering a concatenation filters each part. */
  lemma {:induction false} ModEntriesAppend(a: seq<Entry>, b: seq<Entry>, values: map<NodeId, Val>, strategy: Val)
    ensures ModEntries(a + b, values, strategy) == ModEntries(a, values, strategy) + ModEntries(b, values, strategy)
    decreases |b|
  {
    if |b| == 0 {
      assert a + b == a;
    } else {
      var b' := b[..|b| - 1];
      assert (a + b)[..|a + b| - 1] == a + b';
      assert (a + b)[|a + b| - 1] == b[|b| - 1];
      ModEntriesAppend(a, b', values, strategy);
    }
  }

  /** The filtered list holds exactly the resolved entries. */
  lemma {:induction false} ModEntriesMembers(mods: seq<Entry>, values: map<NodeId, Val>, strategy: Val, m: Mod)
    ensures m in ModEntries(mods, values, strategy)
        <==> exists k :: 0 <= k < |mods| && Resolve(mods[k], values, strategy) == Some(m)
    decreases |mods|
  {
    if |mods| > 0 {
      var init := mods[..|mods| - 1];
      ModEntriesMembers(init, values, strategy, m);
      if m in ModEntries(mods, values, strategy) {
        if m !in ModEntries(init, values, strategy) {
          assert Resolve(mods[|mods| - 1], values, strategy) == Some(m);
        } else {
          var k :| 0 <= k < |init| && Resolve(init[k], values, strategy) == Some(m);
          assert mods[k] == init[k];
        }
      } else {
        forall k | 0 <= k < |mods|
          ensures Resolve(mods[k], values, strategy) != Some(m)
        {
          if k < |init| { assert mods[k] == init[k]; }
        }
      }
    }
  }

  // ---------------------------------------------------------------------
  // Folding the modulator values

  /** The value of the last `override` entry, if there is one. */
  function LastOverride(ms: seq<Mod>): (r: Option<real>)
    decreases |ms|
  {
    if |ms| == 0 then None
    else if ms[|ms| - 1].mode == Override then Some(ms[|ms| - 1].value)
    else LastOverride(ms[..|ms| - 1])
  }

  /** The sum of the `add` entries. */
  function SumAdds(ms: seq<Mod>): real
    decreases |ms|
  {
    if |ms| == 0 then 0.0
    else
      var m := ms[|ms| - 1];
      SumAdds(ms[..|ms| - 1]) + (if m.mode != Override && m.mode == AddMode then m.value else 0.0)
  }

  /** The product of the entries that are neither `override` nor `add`. */
  function ProdMults(ms: seq<Mod>): real
    decreases |ms|
  {
    if |ms| == 0 then 1.0
    else
      var m := ms[|ms| - 1];
      ProdMults(ms[..|ms| - 1]) * (if m.mode != Override && m.mode != AddMode then m.value else 1.0)
  }

  /** An override exists exactly when some entry has that mode, and then it is the last such entry's value. */
  lemma {:induction false} LastOverrideIsLast(ms: seq<Mod>)
    ensures LastOverride(ms).Some? <==> exists k :: 0 <= k < |ms| && ms[k].mode == Override
    ensures LastOverride(ms).Some? ==>
      exists k :: 0 <= k < |ms| && ms[k].mode == Override && ms[k].value == LastOverride(ms).value
        && forall j :: k < j < |ms| ==> ms[j].mode != Override
    decreases |ms|
  {
    if |ms| > 0 {
      var init := ms[..|ms| - 1];
      LastOverrideIsLast(init);
      if ms[|ms| - 1].mode != Override {
        if LastOverride(init).Some? {
          var k :| 0 <= k < |init| && init[k].mode == Override && init[k].value == LastOverride(init).value
            && forall j :: k < j < |init| ==> init[j].mode != Override;
          assert ms[k] == init[k];
          forall j | k < j < |ms| ensures ms[j].mode != Override {
            if j < |init| { assert ms[j] == init[j]; }
          }
        } else {
          forall k | 0 <= k < |ms| ensures ms[k].mode != Override {
            if k < |init| { assert ms[k] == init[k]; }
          }
        }
      }
    }
  }

  /** Appending modulators: a later override wins, sums add up and products multiply. */
  lemma {:induction false} FoldAppend(a: seq<Mod>, b: seq<Mod>)
    ensures LastOverride(a + b) == if LastOverride(b).Some? then LastOverride(b) else LastOverride(a)
    ensures SumAdds(a + b) == SumAdds(a) + SumAdds(b)
    ensures ProdMults(a + b) == ProdMults(a) * ProdMults(b)
    decreases |b|
  {
    if |b| == 0 {
      assert a + b == a;
    } else {
      var b' := b[..|b| - 1];
      assert (a + b)[..|a + b| - 1] == a + b';
      assert (a + b)[|a + b| - 1] == b[|b| - 1];
      FoldAppend(a, b');
      var m := b[|b| - 1];
      var f := if m.mode != Override && m.mode != AddMode then m.value else 1.0;
      calc {
        ProdMults(a + b);
        ProdMults(a + b') * f;
        (ProdMults(a) * ProdMults(b')) * f;
        ProdMults(a) * (ProdMults(b') * f);
      }
    }
  }

  /** The sum and the product do not depend on the order of the modulators. */
  lemma SumProdCommute(a: seq<Mod>, b: seq<Mod>)
    ensures SumAdds(a + b) == SumAdds(b + a)
    ensures ProdMults(a + b) == ProdMults(b + a)
  {
    FoldAppend(a, b);
    FoldAppend(b, a);
  }

  /**
   * The effective value: the parameter's own value with no modulators,
   * else the last override, else base * product + sum, where the base
   * is 0 when the value is not a number.
   */
  function Effective(p: Param, ms: seq<Mod>): Val {
    if |ms| == 0 then p.value
    else match LastOverride(ms)
      case Some(v) => Number(Fin(v))
      case None =>
        var base := if p.value.Number? then p.value.n else Fin(0.0);
        Number(Add(Mul(base, Fin(ProdMults(ms))), Fin(SumAdds(ms))))
  }

  /** The two cases of the effective value in terms of the entries themselves. */
  lemma EffectiveCases(p: Param, ms: seq<Mod>)
    ensures (exists k :: 0 <= k < |ms| && ms[k].mode == Override) ==>
      exists k :: 0 <= k < |ms| && ms[k].mode == Override && Effective(p, ms) == Number(Fin(ms[k].value))
        && forall j :: k < j < |ms| ==> ms[j].mode != Override
    ensures |ms| > 0 && (forall k :: 0 <= k < |ms| ==> ms[k].mode != Override) ==>
      Effective(p, ms) == Number(Add(Mul(if p.value.Number? then p.value.n else Fin(0.0), Fin(ProdMults(ms))), Fin(SumAdds(ms))))
  {
    LastOverrideIsLast(ms);
  }

  /** The modulator list of parameter `index`, empty when there is none. */
  function ModsAt(pm: seq<seq<Entry>>, index: nat): seq<Entry> {
    if index < |pm| then pm[index] else []
  }

  /** The filtered modulators of one parameter. */
  function Entries(p: Param, pm: seq<seq<Entry>>, index: nat, values: map<NodeId, Val>): seq<Mod> {
    ModEntries(ModsAt(pm, index), values, p.modulationStrategy)
  }

  /** The loop of `updateParam` over the filtered modulators. */
  method Fold(ms: seq<Mod>) returns (overrideValue: Option<real>, additiveSum: real, multiplicativeProduct: real)
    ensures overrideValue == LastOverride(ms)
    ensures additiveSum == SumAdds(ms)
    ensures multiplicativeProduct == ProdMults(ms)
  {
    overrideValue, additiveSum, multiplicativeProduct := None, 0.0, 1.0;
    var i := 0;
    while i < |ms|
      invariant i <= |ms|
      invariant overrideValue == LastOverride(ms[..i])
      invariant additiveSum == SumAdds(ms[..i])
      invariant multiplicativeProduct == ProdMults(ms[..i])
    {
      var m := ms[i];
      if m.mode == Override {
        overrideValue := Some(m.value);
      } else if m.mode == AddMode {
        additiveSum := additiveSum + m.value;
      } else {
        multiplicativeProduct := multiplicativeProduct * m.value;
      }
      assert ms[..i + 1][..i] == ms[..i];
      i := i + 1;
    }
    assert ms[..i] == ms;
  }

  // ---------------------------------------------------------------------
  // Defaults and the saved strategies

  /** `p.caption ? `${p.caption} Scale` : 'Scale'` */
  function InputName(caption: string): string {
    if caption != "" then caption + " Scale" else "Scale"
  }

  /** What `initializeParams` fills in before the first update. */
  function Defaulted(p: Param): (r: Param)
    ensures Truthy(r.modulationStrategy)
    ensures r.defaultModulationStrategy == (if p.defaultModulationStrategy.Undefined? then r.modulationStrategy else p.defaultModulationStrategy)
    ensures r.value == p.value && r.caption == p.caption && r.hasOnChange == p.hasOnChange
  {
    var strategy := Or(p.modulationStrategy, Multiply);
    p.(defaultValue := if p.defaultValue.Undefined? then p.value else p.defaultValue,
       modulationStrategy := strategy,
       defaultModulationStrategy := if p.defaultModulationStrategy.Undefined? then strategy else p.defaultModulationStrategy)
  }

  function DefaultedAll(ps: seq<Param>): (r: seq<Param>)
    ensures |r| == |ps| && forall i :: 0 <= i < |ps| ==> r[i] == Defaulted(ps[i])
  {
    seq(|ps|, i requires 0 <= i < |ps| => Defaulted(ps[i]))
  }

  /** The strategy in force and the default one, both falling back to multiply. */
  function Current(p: Param): Val { Or(p.modulationStrategy, Multiply) }
  function Default(p: Param): Val { Or(p.defaultModulationStrategy, Multiply) }

  predicate Differs(p: Param) { Current(p) != Default(p) }

  /** The record saved for a parameter whose strategy differs. */
  function StrategyRecord(index: nat, strategy: Val): Val {
    Obj(map["index" := Number(Fin(index as real)), "strategy" := strategy])
  }

  /** The records for the differing parameters among the first `n`. */
  function Overrides(ps: seq<Param>, n: nat): seq<Val>
    requires n <= |ps|
  {
    if n == 0 then []
    else Overrides(ps, n - 1) + (if Differs(ps[n - 1]) then [StrategyRecord(n - 1, Current(ps[n - 1]))] else [])
  }

  /** `getExtraData`: null when no strategy differs. */
  function ExtraData(ps: seq<Param>): Val {
    var o := Overrides(ps, |ps|);
    if |o| == 0 then Null else Obj(map["paramStrategies" := Arr(o)])
  }

  /** The saved index of a record, -1 when it has no finite one. */
  function RecordIndex(r: Val): real {
    var x := Get(r, "index");
    if x.Number? && x.n.Fin? then x.n.v else -1.0
  }

  /** The records name exactly the differing parameters, in index order, each once. */
  lemma {:induction false} OverridesExact(ps: seq<Param>, n: nat)
    requires n <= |ps|
    ensures forall r :: r in Overrides(ps, n) ==>
      exists i :: 0 <= i < n && Differs(ps[i]) && r == StrategyRecord(i, Current(ps[i]))
    ensures forall i :: 0 <= i < n && Differs(ps[i]) ==> StrategyRecord(i, Current(ps[i])) in Overrides(ps, n)
    ensures forall a, b :: 0 <= a < b < |Overrides(ps, n)| ==>
      RecordIndex(Overrides(ps, n)[a]) < RecordIndex(Overrides(ps, n)[b])
    ensures forall a :: 0 <= a < |Overrides(ps, n)| ==> 0.0 <= RecordIndex(Overrides(ps, n)[a]) < n as real
  {
    if n > 0 {
      OverridesExact(ps, n - 1);
    }
  }

  /** `getExtraData` is null exactly when every strategy is its default. */
  lemma ExtraDataNull(ps: seq<Param>)
    ensures ExtraData(ps) == Null <==> forall i :: 0 <= i < |ps| ==> !Differs(ps[i])
  {
    OverridesExact(ps, |ps|);
    if Overrides(ps, |ps|) != [] {
      assert Overrides(ps, |ps|)[0] in Overrides(ps, |ps|);
    }
  }

  /** Right after `initializeParams` no strategy differs from its default. */
  lemma FreshParamsHaveNoExtraData(ps: seq<Param>)
    requires forall i :: 0 <= i < |ps| ==> ps[i].defaultModulationStrategy.Undefined?
    ensures ExtraData(DefaultedAll(ps)) == Null
  {
    var qs := DefaultedAll(ps);
    forall i | 0 <= i < |qs| ensures !Differs(qs[i]) {
      assert qs[i] == Defaulted(ps[i]);
    }
    ExtraDataNull(qs);
  }

  /** The list `restoreExtraData` walks. */
  function StrategyList(data: Val): seq<Val> {
    var s := Get(data, "paramStrategies");
    if s.Arr? then s.items else if Truthy(s) then [s] else []
  }

  /** The parameter a saved index names: an integral number within range. */
  function IndexOf(x: Val, len: nat): (r: Option<nat>)
    ensures r.Some? ==> r.value < len && x == Number(Fin(r.value as real))
  {
    if x.Number? && x.n.Fin? && x.n.v == x.n.v.Floor as real && 0 <= x.n.v.Floor < len
    then Some(x.n.v.Floor) else None
  }

  /** One saved record applied to the parameters. */
  function ApplyRecord(ps: seq<Param>, entry: Val): (r: seq<Param>)
    ensures |r| == |ps|
  {
    match IndexOf(Get(entry, "index"), |ps|)
    case Some(i) => ps[i := ps[i].(modulationStrategy := Or(Get(entry, "strategy"), Multiply))]
    case None => ps
  }

  /** The first `n` records applied in order. */
  function ApplyRecords(ps: seq<Param>, records: seq<Val>, n: nat): (r: seq<Param>)
    requires n <= |records|
    ensures |r| == |ps|
  {
    if n == 0 then ps else ApplyRecord(ApplyRecords(ps, records, n - 1), records[n - 1])
  }

  /** `restoreExtraData` as a function of the parameters. */
  function Restored(ps: seq<Param>, data: Val): (r: seq<Param>)
    ensures |r| == |ps|
  {
    if !Truthy(data) then ps
    else
      var records := StrategyList(data);
      ApplyRecords(ps, records, |records|)
  }

  /** The saved records touch only the strategies of the parameters they name. */
  lemma {:induction false} ApplyOverridesAt(ps: seq<Param>, q: seq<Param>, n: nat, i: nat)
    requires n <= |ps| == |q| && i < |q|
    ensures ApplyRecords(q, Overrides(ps, n), |Overrides(ps, n)|)[i]
         == if i < n && Differs(ps[i]) then q[i].(modulationStrategy := Current(ps[i])) else q[i]
  {
    if n > 0 {
      ApplyOverridesAt(ps, q, n - 1, i);
      ApplyOverridesStep(ps, q, n);
    }
  }

  /** The records of the first n parameters: those of the first n − 1, then parameter n − 1's if it differs. */
  lemma ApplyOverridesStep(ps: seq<Param>, q: seq<Param>, n: nat)
    requires 0 < n <= |ps| == |q|
    ensures var r0 := ApplyRecords(q, Overrides(ps, n - 1), |Overrides(ps, n - 1)|);
      ApplyRecords(q, Overrides(ps, n), |Overrides(ps, n)|)
      == if Differs(ps[n - 1]) then r0[n - 1 := r0[n - 1].(modulationStrategy := Current(ps[n - 1]))] else r0
  {
    var o := Overrides(ps, n - 1);
    var r0 := ApplyRecords(q, o, |o|);
    if Differs(ps[n - 1]) {
      var rec := StrategyRecord(n - 1, Current(ps[n - 1]));
      var o' := o + [rec];
      assert Overrides(ps, n) == o';
      ApplyRecordsPrefix(q, o', |o|);
      assert o'[..|o|] == o;
      assert ApplyRecords(q, o', |o'|) == ApplyRecord(r0, rec);
      ApplyStrategyRecord(r0, n - 1, Current(ps[n - 1]));
    } else {
      assert Overrides(ps, n) == o;
    }
  }

  /** Applying one saved record sets the strategy it names. */
  lemma ApplyStrategyRecord(q: seq<Param>, i: nat, strategy: Val)
    requires i < |q| && Truthy(strategy)
    ensures ApplyRecord(q, StrategyRecord(i, strategy)) == q[i := q[i].(modulationStrategy := strategy)]
  {
    var rec := StrategyRecord(i, strategy);
    assert Get(rec, "index") == Number(Fin(i as real));
    assert Get(rec, "strategy") == strategy;
  }

  lemma {:induction false} ApplyRecordsPrefix(ps: seq<Param>, records: seq<Val>, n: nat)
    requires n <= |records|
    ensures ApplyRecords(ps, records, n) == ApplyRecords(ps, records[..n], n)
    decreases n
  {
    if n > 0 {
      ApplyRecordsPrefix(ps, records, n - 1);
      ApplyRecordsPrefix(ps, records[..n], n - 1);
      assert records[..n][..n - 1] == records[..n - 1];
    }
  }

  /**
   * Restoring the saved record onto parameters whose strategies sit at
   * the same defaults reproduces every strategy in force, and changes
   * nothing else.
   */
  lemma ExtraDataRoundTrip(ps: seq<Param>, q: seq<Param>)
    requires |q| == |ps|
    requires forall i :: 0 <= i < |q| ==> Current(q[i]) == Default(ps[i])
    ensures var r := Restored(q, ExtraData(ps));
      forall i :: 0 <= i < |q| ==>
        (Current(r[i]) == Current(ps[i]) && r[i] == q[i].(modulationStrategy := r[i].modulationStrategy))
  {
    var o := Overrides(ps, |ps|);
    if |o| == 0 {
      ExtraDataNull(ps);
    } else {
      var data := Obj(map["paramStrategies" := Arr(o)]);
      assert StrategyList(data) == o;
      forall i | 0 <= i < |q|
        ensures ApplyRecords(q, o, |o|)[i] == if Differs(ps[i]) then q[i].(modulationStrategy := Current(ps[i])) else q[i]
      {
        ApplyOverridesAt(ps, q, |ps|, i);
      }
    }
  }

  // ---------------------------------------------------------------------
  // The node

  /** The parameter state after its first update; untouched without an `onChange`. */
  function Settled(p: Param, pm: seq<seq<Entry>>, index: nat, values: map<NodeId, Val>): Param {
    if p.hasOnChange then p.(effectiveValue := Effective(p, Entries(p, pm, index, values))) else p
  }

  /** The parameters after `updateParam(index)`. */
  function SettleAt(ps: seq<Param>, pm: seq<seq<Entry>>, index: nat, values: map<NodeId, Val>): (r: seq<Param>)
    ensures |r| == |ps|
  {
    if index < |ps| then ps[index := Settled(ps[index], pm, index, values)] else ps
  }

  /** The parameters after `updateParam` of every index in turn. */
  function SettledAll(ps: seq<Param>, pm: seq<seq<Entry>>, values: map<NodeId, Val>): (r: seq<Param>)
    ensures |r| == |ps| && forall k :: 0 <= k < |ps| ==> r[k] == Settled(ps[k], pm, k, values)
  {
    seq(|ps|, k requires 0 <= k < |ps| => Settled(ps[k], pm, k, values))
  }

  /** The `onChange` call `updateParam(index)` makes, if any. */
  function LogAt(ps: seq<Param>, pm: seq<seq<Entry>>, index: nat, values: map<NodeId, Val>): seq<Change> {
    if index < |ps| && ps[index].hasOnChange then
      var es := Entries(ps[index], pm, index, values);
      [Change(index, Effective(ps[index], es), |es| > 0)]
    else []
  }

  /** Whether `updateParam(index)` reports the value as coming from automation. */
  function Automated(p: Param, pm: seq<seq<Entry>>, index: nat, values: map<NodeId, Val>): bool {
    |Entries(p, pm, index, values)| > 0
  }

  function AutomatedAll(ps: seq<Param>, pm: seq<seq<Entry>>, values: map<NodeId, Val>): (r: seq<bool>)
    ensures |r| == |ps| && forall k :: 0 <= k < |ps| ==> r[k] == Automated(ps[k], pm, k, values)
  {
    seq(|ps|, k requires 0 <= k < |ps| => Automated(ps[k], pm, k, values))
  }

  /** The settled parameters and automation flags, stated index by index. */
  lemma Plan(ps: seq<Param>, pm: seq<seq<Entry>>, values: map<NodeId, Val>) returns (settled: seq<Param>, automated: seq<bool>)
    ensures |settled| == |ps| == |automated|
    ensures forall k {:trigger Settled(ps[k], pm, k, values)} :: 0 <= k < |ps| ==> settled[k] == Settled(ps[k], pm, k, values)
    ensures forall k {:trigger Automated(ps[k], pm, k, values)} :: 0 <= k < |ps| ==> automated[k] == Automated(ps[k], pm, k, values)
  {
    settled := SettledAll(ps, pm, values);
    automated := AutomatedAll(ps, pm, values);
  }

  /**
   * The `onChange` calls made by updating parameters 0 .. n-1 in turn,
   * given the parameters as settled and whether each update came from
   * automation: one call per parameter with the callback, in index order.
   */
  function Calls(settled: seq<Param>, automated: seq<bool>, n: nat): seq<Change>
    requires n <= |settled| == |automated|
  {
    if n == 0 then []
    else
      var p := settled[n - 1];
      Calls(settled, automated, n - 1) + (if p.hasOnChange then [Change(n - 1, p.effectiveValue, automated[n - 1])] else [])
  }

  /**
   * Every parameter with a callback among the first `n` is called exactly
   * once, with its settled value, in index order; no other parameter is.
   */
  lemma {:induction false} CallsExact(settled: seq<Param>, automated: seq<bool>, n: nat)
    requires n <= |settled| == |automated|
    ensures forall c :: c in Calls(settled, automated, n) ==>
      c.index < n && settled[c.index].hasOnChange && c == Change(c.index, settled[c.index].effectiveValue, automated[c.index])
    ensures forall k :: 0 <= k < n && settled[k].hasOnChange ==>
      Change(k, settled[k].effectiveValue, automated[k]) in Calls(settled, automated, n)
    ensures forall a, b :: 0 <= a < b < |Calls(settled, automated, n)| ==>
      Calls(settled, automated, n)[a].index < Calls(settled, automated, n)[b].index
  {
    if n > 0 {
      CallsExact(settled, automated, n - 1);
    }
  }

  class Node {
    /** The node's identity, which connections and modulator entries refer to. */
    const id: NodeId
    var params: seq<Param>
    var paramInputs: seq<ParamInput>
    var paramModulators: seq<seq<Entry>>
    /** The `onChange` calls made so far, oldest first. */
    var changes: seq<Change>

    constructor(id: NodeId, params: seq<Param>)
      ensures this.id == id && this.params == params && paramInputs == [] && paramModulators == [] && changes == []
    {
      this.id := id;
      this.params := params;
      paramInputs := [];
      paramModulators := [];
      changes := [];
    }

    /** `setupParameterIO` */
    method SetupParameterIO()
      modifies this
      ensures params == old(params) && changes == old(changes)
      ensures |paramInputs| == |params|
      ensures forall i :: 0 <= i < |params| ==>
        paramInputs[i] == ParamInput(InputName(params[i].caption), i, i)
      ensures |paramModulators| == if |old(paramModulators)| < |params| then |params| else |old(paramModulators)|
      ensures forall i :: 0 <= i < |old(paramModulators)| ==> paramModulators[i] == old(paramModulators)[i]
      ensures forall i :: |old(paramModulators)| <= i < |paramModulators| ==> paramModulators[i] == []
    {
      paramInputs := seq(|params|, i requires 0 <= i < |params| reads this => ParamInput(InputName(params[i].caption), i, i));
      var idx := 0;
      while idx < |params|
        invariant idx <= |params|
        invariant |paramModulators| == if |old(paramModulators)| < idx then idx else |old(paramModulators)|
        invariant forall i :: 0 <= i < |old(paramModulators)| ==> paramModulators[i] == old(paramModulators)[i]
        invariant forall i :: |old(paramModulators)| <= i < |paramModulators| ==> paramModulators[i] == []
        invariant params == old(params) && changes == old(changes)
        invariant |paramInputs| == |params|
        invariant forall i :: 0 <= i < |params| ==> paramInputs[i] == ParamInput(InputName(params[i].caption), i, i)
      {
        if idx >= |paramModulators| {
          paramModulators := paramModulators + [[]];
        }
        idx := idx + 1;
      }
    }

    /** `updateParam(index)` with the modulators' current values. */
    method UpdateParam(index: nat, values: map<NodeId, Val>)
      modifies this
      ensures paramInputs == old(paramInputs) && paramModulators == old(paramModulators)
      ensures params == SettleAt(old(params), paramModulators, index, values)
      ensures changes == old(changes) + LogAt(old(params), paramModulators, index, values)
    {
      if index >= |params| || !params[index].hasOnChange {
        return;
      }
      var param := params[index];
      var mods := if index < |paramModulators| then paramModulators[index] else [];
      var modEntries := ModEntries(mods, values, param.modulationStrategy);
      var effective := param.value;
      if |modEntries| > 0 {
        var overrideValue, additiveSum, multiplicativeProduct := Fold(modEntries);
        if overrideValue.Some? {
          effective := Number(Fin(overrideValue.value));
        } else {
          var base := if param.value.Number? then param.value.n else Fin(0.0);
          effective := Number(Add(Mul(base, Fin(multiplicativeProduct)), Fin(additiveSum)));
        }
      }
      changes := changes + [Change(index, effective, |modEntries| > 0)];
      params := params[index := param.(effectiveValue := effective)];
    }

    /** `removeParamModulator(index, node)` */
    method RemoveParamModulator(index: nat, node: NodeId)
      modifies this
      ensures params == old(params) && paramInputs == old(paramInputs) && changes == old(changes)
      ensures |paramModulators| == |old(paramModulators)|
      ensures forall i :: 0 <= i < |paramModulators| && i != index ==> paramModulators[i] == old(paramModulators)[i]
      ensures index < |paramModulators| ==> paramModulators[index] == Filter(old(paramModulators)[index], FromOther(node))
    {
      if index >= |paramModulators| {
        return;
      }
      paramModulators := paramModulators[index := Filter(paramModulators[index], FromOther(node))];
    }

    /** `initializeParams` */
    method InitializeParams(values: map<NodeId, Val>)
      modifies this
      ensures |params| == |old(params)|
      ensures params == SettledAll(DefaultedAll(old(params)), paramModulators, values)
      ensures changes == old(changes) + Calls(params, AutomatedAll(DefaultedAll(old(params)), paramModulators, values), |params|)
      ensures |paramInputs| == |params|
      ensures |paramModulators| >= |old(paramModulators)| && |paramModulators| >= |params|
      ensures forall i :: 0 <= i < |old(paramModulators)| ==> paramModulators[i] == old(paramModulators)[i]
      ensures forall i :: |old(paramModulators)| <= i < |paramModulators| ==> paramModulators[i] == []
    {
      SetupParameterIO();
      ApplyDefaults();
      UpdateAll(values);
    }

    /** The first loop of `initializeParams`: defaults for every parameter. */
    method ApplyDefaults()
      modifies this
      ensures params == DefaultedAll(old(params))
      ensures paramInputs == old(paramInputs) && paramModulators == old(paramModulators) && changes == old(changes)
    {
      var i := 0;
      while i < |params|
        invariant i <= |params| == |old(params)|
        invariant forall k :: 0 <= k < i ==> params[k] == Defaulted(old(params)[k])
        invariant forall k :: i <= k < |params| ==> params[k] == old(params)[k]
        invariant paramInputs == old(paramInputs) && paramModulators == old(paramModulators) && changes == old(changes)
      {
        params := params[i := Defaulted(params[i])];
        i := i + 1;
      }
    }

    /** The second loop of `initializeParams`: `updateParam` for every index in turn. */
    method UpdateAll(values: map<NodeId, Val>)
      modifies this
      ensures params == SettledAll(old(params), paramModulators, values)
      ensures changes == old(changes) + Calls(params, AutomatedAll(old(params), paramModulators, values), |params|)
      ensures paramInputs == old(paramInputs) && paramModulators == old(paramModulators)
    {
      ghost var target, automated := Plan(params, paramModulators, values);
      var idx := 0;
      while idx < |params|
        invariant idx <= |params| == |old(params)| == |target|
        invariant forall k :: 0 <= k < idx ==> params[k] == target[k]
        invariant forall k :: idx <= k < |params| ==> params[k] == old(params)[k]
        invariant changes == old(changes) + Calls(target, automated, idx)
        invariant paramInputs == old(paramInputs) && paramModulators == old(paramModulators)
      {
        UpdateNext(idx, values, target[idx], automated[idx]);
        idx := idx + 1;
      }
      assert params == target;
      assert target == SettledAll(old(params), paramModulators, values);
      assert automated == AutomatedAll(old(params), paramModulators, values);
    }

    /** One iteration of `UpdateAll`. */
    method UpdateNext(idx: nat, values: map<NodeId, Val>, ghost settled: Param, ghost automated: bool)
      requires idx < |params|
      requires settled == Settled(params[idx], paramModulators, idx, values)
      requires automated == Automated(params[idx], paramModulators, idx, values)
      modifies this
      ensures params == old(params)[idx := settled]
      ensures changes == old(changes) + (if settled.hasOnChange then [Change(idx, settled.effectiveValue, automated)] else [])
      ensures paramInputs == old(paramInputs) && paramModulators == old(paramModulators)
    {
      UpdateParam(idx, values);
    }

    /** `getExtraData` */
    method GetExtraData() returns (r: Val)
      ensures r == ExtraData(params)
    {
      if |params| == 0 {
        return Null;
      }
      var overrides: seq<Val> := [];
      var idx := 0;
      while idx < |params|
        invariant idx <= |params|
        invariant overrides == Overrides(params, idx)
      {
        var param := params[idx];
        var defaultStrategy := Or(param.defaultModulationStrategy, Multiply);
        var currentStrategy := Or(param.modulationStrategy, Multiply);
        if currentStrategy != defaultStrategy {
          overrides := overrides + [StrategyRecord(idx, currentStrategy)];
        }
        idx := idx + 1;
      }
      r := if |overrides| > 0 then Obj(map["paramStrategies" := Arr(overrides)]) else Null;
    }

    /** `restoreExtraData(data)` */
    method RestoreExtraData(data: Val)
      modifies this
      ensures params == Restored(old(params), data)
      ensures paramInputs == old(paramInputs) && paramModulators == old(paramModulators) && changes == old(changes)
    {
      if !Truthy(data) {
        return;
      }
      var s := Get(data, "paramStrategies");
      var strategies := if s.Arr? then s.items else if Truthy(s) then [s] else [];
      ghost var start := params;
      var n := 0;
      while n < |strategies|
        invariant n <= |strategies|
        invariant params == ApplyRecords(start, strategies, n)
        invariant paramInputs == old(paramInputs) && paramModulators == old(paramModulators) && changes == old(changes)
      {
        var entry := strategies[n];
        var index := Get(entry, "index");
        var target := IndexOf(index, |params|);
        if target.Some? {
          var i := target.value;
          params := params[i := params[i].(modulationStrategy := Or(Get(entry, "strategy"), Multiply))];
        }
        n := n + 1;
      }
    }
  }

  /** The test of `removeParamModulator`'s filter: `entry.node !== node`. */
  function FromOther(node: NodeId): Entry -> bool {
    (e: Entry) => e.node != Some(node)
  }
}
