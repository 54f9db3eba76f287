/**
 * The list and state bookkeeping of the node-graph editor: the octave
 * offset of the on-screen keyboard, audio and parameter connections, the
 * mode cycle of a parameter connection, deleting a node, moving the
 * dragged selection to the end of the drawing order, and the slider that
 * maps a pointer position to a parameter value.
 *
 * Nodes are `DspNode.Node` objects compared by reference, as the editor
 * compares them; modulator entries name a node by its identity. The
 * modulators' current values are passed as a map wherever a parameter is
 * updated.
 */
module GraphApp {
  import opened JsValues
  import opened Lists
  import D = DspNode

  // ---------------------------------------------------------------------
  // Octave offset

  /** `Math.max(-4, Math.min(4, x))` */
  function ClampOctave(x: int): (r: int)
    ensures -4 <= r <= 4
    ensures -4 <= x <= 4 ==> r == x
    ensures x > 4 ==> r == 4
    ensures x < -4 ==> r == -4
  {
    if x > 4 then 4 else if x < -4 then -4 else x
  }

  // ---------------------------------------------------------------------
  // Parameter connection modes

  /** The mode after `mode` in the cycle multiply, add, override; anything else restarts at multiply. */
  function NextMode(mode: Val): (r: Val)
    ensures r == D.Multiply || r == D.AddMode || r == D.Override
  {
    var current := D.Or(mode, D.Multiply);
    if current == D.Multiply then D.AddMode
    else if current == D.AddMode then D.Override
    else D.Multiply
  }

  /** Three steps bring every known mode back; a missing or unknown mode goes to multiply. */
  lemma NextModeCycle(mode: Val)
    ensures mode == D.Multiply ==> NextMode(mode) == D.AddMode
    ensures mode == D.AddMode ==> NextMode(mode) == D.Override
    ensures mode == D.Override ==> NextMode(mode) == D.Multiply
    ensures mode in {D.Multiply, D.AddMode, D.Override} ==> NextMode(NextMode(NextMode(mode))) == mode
    ensures mode !in {D.Multiply, D.AddMode, D.Override} ==> NextMode(mode) == (if Truthy(mode) then D.Multiply else D.AddMode)
  {
  }

  // ---------------------------------------------------------------------
  // Connections

  datatype Connection =
    | Audio(fromNode: D.Node, fromPort: nat, toNode: D.Node, toPort: nat)
    | ParamLink(fromNode: D.Node, fromPort: nat, toNode: D.Node, toPort: nat, paramIndex: nat, mode: Val)

  /** No audio connection is listed twice. */
  predicate AudioDistinct(cs: seq<Connection>) {
    forall i, j :: 0 <= i < j < |cs| && cs[i].Audio? ==> cs[i] != cs[j]
  }

  /** The connection list after an audio `connect`: unchanged when the connection exists. */
  function WithAudio(cs: seq<Connection>, c: Connection): seq<Connection> {
    if c in cs then cs else cs + [c]
  }

  /** An audio `connect` keeps every connection, lists the new one, and never duplicates one. */
  lemma WithAudioKeepsDistinct(cs: seq<Connection>, c: Connection)
    requires c.Audio?
    ensures AudioDistinct(cs) ==> AudioDistinct(WithAudio(cs, c))
    ensures c in WithAudio(cs, c)
    ensures |WithAudio(cs, c)| <= |cs| + 1 && WithAudio(cs, c)[..|cs|] == cs
  {
    if c !in cs {
      var r := cs + [c];
      assert r[..|cs|] == cs;
      if AudioDistinct(cs) {
        forall i, j | 0 <= i < j < |r| && r[i].Audio? ensures r[i] != r[j] {
          if j == |cs| {
            assert r[i] == cs[i];
          } else {
            assert r[i] == cs[i] && r[j] == cs[j];
          }
        }
      }
    }
  }

  /** Whether some entry of the modulator list names `id`. */
  predicate Listed(list: seq<D.Entry>, id: D.NodeId) {
    exists k :: 0 <= k < |list| && list[k].node == Some(id)
  }

  /** No node appears twice in a modulator list. */
  predicate OnceEach(list: seq<D.Entry>) {
    forall a, b :: 0 <= a < b < |list| && list[a].node.Some? ==> list[a].node != list[b].node
  }

  /** The modulator list after a param `connect` from `id`. */
  function Linked(list: seq<D.Entry>, id: D.NodeId, mode: Val): seq<D.Entry> {
    if Listed(list, id) then list else list + [D.Entry(Some(id), mode)]
  }

  /** A param `connect` lists its source once, keeps the earlier entries, and adds no other duplicate. */
  lemma LinkedOnce(list: seq<D.Entry>, id: D.NodeId, mode: Val)
    ensures OnceEach(list) ==> OnceEach(Linked(list, id, mode))
    ensures Listed(Linked(list, id, mode), id)
    ensures Linked(list, id, mode)[..|list|] == list
    ensures !Listed(list, id) ==> Linked(list, id, mode) == list + [D.Entry(Some(id), mode)]
  {
    var r := Linked(list, id, mode);
    if !Listed(list, id) {
      assert r[..|list|] == list;
      assert r[|list|].node == Some(id);
      if OnceEach(list) {
        forall a, b | 0 <= a < b < |r| && r[a].node.Some? ensures r[a].node != r[b].node {
          assert r[a] == list[a];
          if b < |list| { assert r[b] == list[b]; }
        }
      }
    }
  }

  /** The modulator lists with an empty list at every missing index below `n`. */
  function Padded(pm: seq<seq<D.Entry>>, n: nat): (r: seq<seq<D.Entry>>)
    ensures |r| == if |pm| < n then n else |pm|
    ensures forall i :: 0 <= i < |pm| ==> r[i] == pm[i]
    ensures forall i :: |pm| <= i < |r| ==> r[i] == []
  {
    if |pm| >= n then pm else pm + seq(n - |pm|, _ => [])
  }

  /** `modeOverride || (param && (param.modulationStrategy || param.defaultModulationStrategy)) || 'multiply'` */
  function DefaultMode(modeOverride: Val, ps: seq<D.Param>, index: nat): (r: Val)
    ensures Truthy(r)
    ensures Truthy(modeOverride) ==> r == modeOverride
    ensures !Truthy(modeOverride) && index < |ps| && Truthy(ps[index].modulationStrategy) ==> r == ps[index].modulationStrategy
    ensures !Truthy(modeOverride) && (index >= |ps| || (!Truthy(ps[index].modulationStrategy) && !Truthy(ps[index].defaultModulationStrategy))) ==> r == D.Multiply
  {
    var fromParam := if index < |ps| then D.Or(ps[index].modulationStrategy, ps[index].defaultModulationStrategy) else Undefined;
    D.Or(D.Or(modeOverride, fromParam), D.Multiply)
  }

  /** The first entry of a modulator list naming `id`: `modList.find(item => item.node === fromNode)`. */
  function FirstWith(list: seq<D.Entry>, id: D.NodeId): (r: Option<nat>)
    ensures r.Some? ==> (r.value < |list| && list[r.value].node == Some(id)
      && forall j :: 0 <= j < r.value ==> list[j].node != Some(id))
    ensures r.None? ==> forall j :: 0 <= j < |list| ==> list[j].node != Some(id)
  {
    if |list| == 0 then None
    else if list[0].node == Some(id) then Some(0)
    else
      match FirstWith(list[1..], id)
      case Some(k) => Some(k + 1)
      case None => None
  }

  /**
   * The list after the found entry's mode is set. Every other entry is kept;
   * in a list where each node appears once, every entry of that node has
   * the new mode.
   */
  function SetFirstMode(list: seq<D.Entry>, id: D.NodeId, mode: Val): (r: seq<D.Entry>)
    ensures |r| == |list|
    ensures forall k :: 0 <= k < |list| && list[k].node != Some(id) ==> r[k] == list[k]
    ensures forall k :: 0 <= k < |list| && list[k].node == Some(id) && OnceEach(list) ==>
      r[k] == list[k].(mode := mode)
  {
    match FirstWith(list, id)
    case Some(k) => list[k := list[k].(mode := mode)]
    case None => list
  }

  /** The node a parameter connection at `i` modulates, if there is one. */
  function TargetOf(cs: seq<Connection>, i: nat): set<D.Node> {
    if i < |cs| && cs[i].ParamLink? then {cs[i].toNode} else {}
  }

  /** The test of `deleteNode`'s filter: the connection starts or ends at `node`. */
  function Touching(node: D.Node): Connection -> bool {
    (c: Connection) => c.fromNode == node || c.toNode == node
  }

  // ---------------------------------------------------------------------
  // The slider

  /** The pointer's position along the slider, clamped to [0, 1]. */
  function PointerNorm(pointerX: real, nodeX: real, nodeWidth: real): (r: real)
    requires nodeWidth - 20.0 > 0.0
    ensures 0.0 <= r <= 1.0
  {
    var n := (pointerX - (nodeX + 10.0)) / (nodeWidth - 20.0);
    if n < 0.0 then 0.0 else if n > 1.0 then 1.0 else n
  }

  /** The slider fields a parameter record holds as numbers. */
  predicate SliderNumbers(p: D.Param) {
    p.min.Number? && p.max.Number? && p.value.Number? && (Truthy(p.step) ==> p.step.Number?)
  }

  /**
   * The value the slider sets at `norm`: a log or signed-power slider takes
   * the host's curve, any other the straight line from min to max; a step
   * rounds it, and it is clamped to [min, max].
   */
  function SliderValue(p: D.Param, norm: real, curve: real -> Num): Num
    requires SliderNumbers(p)
  {
    var min, max := p.min.n, p.max.n;
    var raw :=
      if p.scale == Str("log") || p.scale == Str("signedPow") then curve(norm)
      else Add(min, Mul(Add(max, Neg(min)), Fin(norm)));
    var stepped := if Truthy(p.step) then Mul(RoundNum(Div(raw, p.step.n)), p.step.n) else raw;
    Min(max, Max(min, stepped))
  }

  /** Whether the new value differs from the old by at least 1e-6 (or either is not finite). */
  predicate Moves(p: D.Param, v: Num)
    requires p.value.Number?
  {
    !Less(AbsNum(Add(v, Neg(p.value.n))), Fin(0.000001))
  }

  /** With finite bounds in order, the slider's value is within them, unless it is NaN. */
  lemma SliderInRange(p: D.Param, norm: real, curve: real -> Num)
    requires SliderNumbers(p) && p.min.n.Fin? && p.max.n.Fin? && p.min.n.v <= p.max.n.v
    ensures var r := SliderValue(p, norm, curve);
      r.NaN? || (r.Fin? && p.min.n.v <= r.v <= p.max.n.v)
  {
  }

  /** A linear slider without a step maps [0, 1] straight onto [min, max]. */
  lemma {:induction false} SliderLinear(p: D.Param, norm: real, curve: real -> Num)
    requires SliderNumbers(p) && p.min.n.Fin? && p.max.n.Fin? && p.min.n.v <= p.max.n.v
    requires p.scale != Str("log") && p.scale != Str("signedPow") && !Truthy(p.step)
    requires 0.0 <= norm <= 1.0
    ensures SliderValue(p, norm, curve) == Fin(p.min.n.v + (p.max.n.v - p.min.n.v) * norm)
  {
    var lo, hi := p.min.n.v, p.max.n.v;
    var v := lo + (hi - lo) * norm;
    assert (hi - lo) * norm <= (hi - lo) * 1.0 by {
      MulSigns(hi - lo, 1.0 - norm);
      assert (hi - lo) * (1.0 - norm) == (hi - lo) * 1.0 - (hi - lo) * norm;
    }
    MulSigns(hi - lo, norm);
    assert lo <= v <= hi;
    assert Add(p.min.n, Mul(Add(p.max.n, Neg(p.min.n)), Fin(norm))) == Fin(v);
  }

  // ---------------------------------------------------------------------
  // Signed-power sliders

  /** A number that is at least 0: finite and non-negative, or +Infinity. */
  predicate NonNegative(x: Num) {
    (x.Fin? && x.v >= 0.0) || x.PosInf?
  }

  /** `getSignedPowSpans`: the extent of the slider below and above zero. */
  function SignedPowSpans(param: Option<D.Param>): (r: (Num, Num))
    ensures NonNegative(r.0) && NonNegative(r.1)
    ensures param.Some? && param.value.min.Number? && param.value.min.n.Fin? && param.value.min.n.v <= 0.0
      ==> r.0 == Fin(-param.value.min.n.v)
    ensures param.Some? && param.value.max.Number? && param.value.max.n.Fin? && param.value.max.n.v >= 0.0
      ==> r.1 == Fin(param.value.max.n.v)
  {
    match param
    case None => (Fin(1.0), Fin(1.0))
    case Some(p) =>
      var min := if p.min.Number? then p.min.n else Fin(-1.0);
      var max := if p.max.Number? then p.max.n else Fin(1.0);
      var neg := Max(Fin(0.0), Neg(min));
      var pos := Max(Fin(0.0), max);
      (if Less(Fin(0.0), neg) then neg else Fin(0.0), if Less(Fin(0.0), pos) then pos else Fin(0.0))
  }

  /** `resolveSignedPowPower`: the parameter's power when it is a finite positive number, else 3. */
  function SignedPowPower(param: Option<D.Param>): (r: real)
    ensures r > 0.0
    ensures param.Some? && param.value.power.Number? && param.value.power.n.Fin? && param.value.power.n.v > 0.0
      ==> r == param.value.power.n.v
    ensures !(param.Some? && param.value.power.Number? && param.value.power.n.Fin? && param.value.power.n.v > 0.0)
      ==> r == 3.0
  {
    if param.Some? && param.value.power.Number? && param.value.power.n.Fin? && param.value.power.n.v > 0.0
    then param.value.power.n.v else 3.0
  }

  // ---------------------------------------------------------------------
  // The editor

  class App {
    /** The nodes in drawing order. */
    var nodes: seq<D.Node>
    /** `selectedNodes`, a set kept in insertion order. */
    var selected: seq<D.Node>
    var connections: seq<Connection>
    var pitchOctaveOffset: int
    /** The nodes of the dragged entries; None stands for null. */
    var draggingSelection: Option<seq<D.Node>>
    var draggingAnchor: Option<D.Node>
    var draggingNode: Option<D.Node>

    /** Neither list holds a node twice, and a drag in progress holds at least one node. */
    predicate Valid()
      reads this
    {
      Distinct(nodes) && Distinct(selected) && -4 <= pitchOctaveOffset <= 4
      && (draggingSelection.Some? ==> |draggingSelection.value| > 0)
    }

    constructor()
      ensures Valid()
      ensures nodes == [] && selected == [] && connections == [] && pitchOctaveOffset == 0
      ensures draggingSelection.None? && draggingAnchor.None? && draggingNode.None?
    {
      nodes := [];
      selected := [];
      connections := [];
      pitchOctaveOffset := 0;
      draggingSelection := None;
      draggingAnchor := None;
      draggingNode := None;
    }

    /** `adjustOctave(delta)` */
    method AdjustOctave(delta: int)
      modifies this
      ensures pitchOctaveOffset == ClampOctave(old(pitchOctaveOffset) + delta)
      ensures nodes == old(nodes) && selected == old(selected) && connections == old(connections)
      ensures draggingSelection == old(draggingSelection) && draggingAnchor == old(draggingAnchor)
      ensures draggingNode == old(draggingNode)
    {
      var next := if pitchOctaveOffset + delta > 4 then 4
        else if pitchOctaveOffset + delta < -4 then -4
        else pitchOctaveOffset + delta;
      if next == pitchOctaveOffset {
        return;
      }
      pitchOctaveOffset := next;
    }

    /** `connect(...)` of an audio connection, the list bookkeeping. */
    method ConnectAudio(fromNode: D.Node, fromPort: nat, toNode: D.Node, toPort: nat)
      modifies this
      ensures connections == WithAudio(old(connections), Audio(fromNode, fromPort, toNode, toPort))
      ensures nodes == old(nodes) && selected == old(selected) && pitchOctaveOffset == old(pitchOctaveOffset)
      ensures draggingSelection == old(draggingSelection) && draggingAnchor == old(draggingAnchor)
      ensures draggingNode == old(draggingNode)
    {
      var conn := Audio(fromNode, fromPort, toNode, toPort);
      if conn in connections {
        return;
      }
      connections := connections + [conn];
    }

    /** `connect(...)` of a parameter connection. */
    method ConnectParam(fromNode: D.Node, fromPort: nat, toNode: D.Node, toPort: nat, modeOverride: Val,
                        values: map<D.NodeId, Val>)
      modifies this, toNode
      ensures toNode.paramInputs == old(toNode.paramInputs)
      ensures nodes == old(nodes) && selected == old(selected) && pitchOctaveOffset == old(pitchOctaveOffset)
      ensures draggingSelection == old(draggingSelection) && draggingAnchor == old(draggingAnchor)
      ensures draggingNode == old(draggingNode)
      ensures toPort >= |old(toNode.paramInputs)| ==>
        connections == old(connections) && toNode.params == old(toNode.params)
        && toNode.paramModulators == old(toNode.paramModulators) && toNode.changes == old(toNode.changes)
      ensures toPort < |old(toNode.paramInputs)| ==>
        var pi := old(toNode.paramInputs)[toPort].paramIndex;
        var lists := Padded(old(toNode.paramModulators), pi + 1);
        var mode := DefaultMode(modeOverride, old(toNode.params), pi);
        toNode.paramModulators == lists[pi := Linked(lists[pi], fromNode.id, mode)]
        && if Listed(lists[pi], fromNode.id) then
             connections == old(connections) && toNode.params == old(toNode.params)
             && toNode.changes == old(toNode.changes)
           else
             connections == old(connections) + [ParamLink(fromNode, fromPort, toNode, toPort, pi, mode)]
             && toNode.params == D.SettleAt(old(toNode.params), toNode.paramModulators, pi, values)
             && toNode.changes == old(toNode.changes) + D.LogAt(old(toNode.params), toNode.paramModulators, pi, values)
    {
      if toPort >= |toNode.paramInputs| {
        return;
      }
      var pi := toNode.paramInputs[toPort].paramIndex;
      if pi >= |toNode.paramModulators| {
        toNode.paramModulators := Padded(toNode.paramModulators, pi + 1);
      }
      var modList := toNode.paramModulators[pi];
      if exists k :: 0 <= k < |modList| && modList[k].node == Some(fromNode.id) {
        return;
      }
      var defaultMode := DefaultMode(modeOverride, toNode.params, pi);
      toNode.paramModulators := toNode.paramModulators[pi := modList + [D.Entry(Some(fromNode.id), defaultMode)]];
      toNode.UpdateParam(pi, values);
      connections := connections + [ParamLink(fromNode, fromPort, toNode, toPort, pi, defaultMode)];
    }

    /** `cycleParamConnectionMode(connections[i])` */
    method CycleParamConnectionMode(i: nat, values: map<D.NodeId, Val>)
      modifies this, TargetOf(connections, i)
      ensures nodes == old(nodes) && selected == old(selected) && pitchOctaveOffset == old(pitchOctaveOffset)
      ensures draggingSelection == old(draggingSelection) && draggingAnchor == old(draggingAnchor)
      ensures draggingNode == old(draggingNode)
      ensures !(i < |old(connections)| && old(connections)[i].ParamLink?) ==> connections == old(connections)
      ensures i < |old(connections)| && old(connections)[i].ParamLink? ==>
        var c := old(connections)[i];
        var next := NextMode(c.mode);
        var pm := old(c.toNode.paramModulators);
        var pm' := if c.paramIndex < |pm| then pm[c.paramIndex := SetFirstMode(pm[c.paramIndex], c.fromNode.id, next)] else pm;
        connections == old(connections)[i := c.(mode := next)]
        && c.toNode.paramModulators == pm'
        && c.toNode.paramInputs == old(c.toNode.paramInputs)
        && c.toNode.params == D.SettleAt(old(c.toNode.params), pm', c.paramIndex, values)
        && c.toNode.changes == old(c.toNode.changes) + D.LogAt(old(c.toNode.params), pm', c.paramIndex, values)
    {
      if i >= |connections| || !connections[i].ParamLink? {
        return;
      }
      var c := connections[i];
      var next := NextMode(c.mode);
      connections := connections[i := c.(mode := next)];
      var toNode := c.toNode;
      var pi := c.paramIndex;
      if pi < |toNode.paramModulators| {
        var modList := toNode.paramModulators[pi];
        var found := FirstWith(modList, c.fromNode.id);
        if found.Some? {
          var k := found.value;
          toNode.paramModulators := toNode.paramModulators[pi := modList[k := modList[k].(mode := next)]];
        }
      }
      toNode.UpdateParam(pi, values);
    }

    /**
     * `deleteNode(node)`: the output node stays; otherwise the node leaves
     * the selection, the drag, the connections and the node list. The
     * removed connections are returned in order; they are the ones
     * `deleteNode` disconnects.
     */
    method DeleteNode(node: D.Node, nodeType: string) returns (removed: seq<Connection>)
      requires Valid()
      modifies this
      ensures Valid()
      ensures nodeType == "output" ==>
        removed == [] && nodes == old(nodes) && selected == old(selected) && connections == old(connections)
        && draggingSelection == old(draggingSelection) && draggingAnchor == old(draggingAnchor)
        && draggingNode == old(draggingNode)
      ensures nodeType != "output" ==>
        nodes == Filter(old(nodes), Without(node)) && selected == Filter(old(selected), Without(node))
        && connections == Filter(old(connections), Not(Touching(node)))
        && removed == Filter(old(connections), Touching(node))
        && multiset(removed) + multiset(connections) == multiset(old(connections))
        && node !in nodes && node !in selected
        && (forall c :: c in connections ==> c.fromNode != node && c.toNode != node)
      ensures pitchOctaveOffset == old(pitchOctaveOffset)
    {
      if nodeType == "output" {
        return [];
      }
      selected := Filter(selected, Without(node));
      FilterDistinct(old(selected), Without(node));
      FilterMembers(old(selected), Without(node), node);
      DropFromDrag(node);
      removed := Filter(connections, Touching(node));
      connections := Filter(connections, Not(Touching(node)));
      FilterPartition(old(connections), Touching(node));
      forall c | c in connections ensures c.fromNode != node && c.toNode != node {
        FilterMembers(old(connections), Not(Touching(node)), c);
      }
      nodes := Filter(nodes, Without(node));
      FilterDistinct(old(nodes), Without(node));
      FilterMembers(old(nodes), Without(node), node);
    }

    /** The drag part of `deleteNode`. */
    method DropFromDrag(node: D.Node)
      modifies this
      ensures nodes == old(nodes) && selected == old(selected) && connections == old(connections)
      ensures pitchOctaveOffset == old(pitchOctaveOffset)
      ensures draggingSelection.Some? ==> |draggingSelection.value| > 0
      ensures old(draggingSelection).None? ==>
        draggingSelection.None? && draggingAnchor == old(draggingAnchor) && draggingNode == old(draggingNode)
      ensures old(draggingSelection).Some? ==>
        var rest := Filter(old(draggingSelection).value, Without(node));
        if |rest| == 0 then
          draggingSelection.None? && draggingAnchor.None? && draggingNode.None?
        else if old(draggingAnchor) == Some(node) then
          draggingSelection == Some(rest) && draggingAnchor == Some(rest[0]) && draggingNode == Some(rest[0])
        else
          draggingSelection == Some(rest) && draggingAnchor == old(draggingAnchor) && draggingNode == old(draggingNode)
    {
      if draggingSelection.Some? {
        var rest := Filter(draggingSelection.value, Without(node));
        draggingSelection := Some(rest);
        if |rest| == 0 {
          draggingSelection := None;
          draggingAnchor := None;
          draggingNode := None;
        } else if draggingAnchor == Some(node) {
          draggingAnchor := Some(rest[0]);
          draggingNode := Some(rest[0]);
        }
      }
    }

    /**
     * `beginDragSelection(anchor)`: the anchor joins the selection if it was
     * not in it, the selection becomes the drag, and the selected nodes move
     * to the end of the drawing order, keeping their relative order.
     */
    method BeginDragSelection(anchor: D.Node)
      requires Valid()
      modifies this
      ensures Valid()
      ensures selected == if anchor in old(selected) then old(selected) else [anchor]
      ensures draggingSelection == Some(selected) && draggingAnchor == Some(anchor) && draggingNode == Some(anchor)
      ensures nodes == Filter(old(nodes), Not(In(selected))) + Filter(old(nodes), In(selected))
      ensures multiset(nodes) == multiset(old(nodes))
      ensures connections == old(connections) && pitchOctaveOffset == old(pitchOctaveOffset)
    {
      if anchor !in selected {
        selected := [anchor];
      }
      draggingSelection := Some(selected);
      draggingAnchor := Some(anchor);
      draggingNode := Some(anchor);
      nodes := DragOrder(nodes, selected);
    }

    /**
     * `setParamValueFromPointer` for the slider of `node.params[index]`
     * drawn at `nodeX` with width `nodeWidth`; `curve` is the host's mapping
     * of a log or signed-power slider. The value is stored and the
     * parameter updated only when it moves by at least 1e-6.
     */
    method SetParamValueFromPointer(node: D.Node, index: nat, pointerX: real, nodeX: real, nodeWidth: real,
                                    curve: real -> Num, values: map<D.NodeId, Val>)
      requires index < |node.params| ==> SliderNumbers(node.params[index])
      modifies node
      ensures node.paramInputs == old(node.paramInputs) && node.paramModulators == old(node.paramModulators)
      ensures index >= |old(node.params)| || nodeWidth - 20.0 <= 0.0 ==>
        node.params == old(node.params) && node.changes == old(node.changes)
      ensures index < |old(node.params)| && nodeWidth - 20.0 > 0.0 ==>
        var p := old(node.params)[index];
        var v := SliderValue(p, PointerNorm(pointerX, nodeX, nodeWidth), curve);
        if !Moves(p, v) then
          node.params == old(node.params) && node.changes == old(node.changes)
        else
          var ps := old(node.params)[index := p.(value := Number(v))];
          node.params == D.SettleAt(ps, node.paramModulators, index, values)
          && node.changes == old(node.changes) + D.LogAt(ps, node.paramModulators, index, values)
    {
      if index >= |node.params| {
        return;
      }
      var param := node.params[index];
      var sliderX := nodeX + 10.0;
      var sliderWidth := nodeWidth - 20.0;
      if sliderWidth <= 0.0 {
        return;
      }
      var norm := (pointerX - sliderX) / sliderWidth;
      norm := if norm < 0.0 then 0.0 else if norm > 1.0 then 1.0 else norm;
      var newVal;
      if param.scale == Str("log") || param.scale == Str("signedPow") {
        newVal := curve(norm);
      } else {
        newVal := Add(param.min.n, Mul(Add(param.max.n, Neg(param.min.n)), Fin(norm)));
      }
      if Truthy(param.step) {
        newVal := Mul(RoundNum(Div(newVal, param.step.n)), param.step.n);
      }
      newVal := Min(param.max.n, Max(param.min.n, newVal));
      if Less(AbsNum(Add(newVal, Neg(param.value.n))), Fin(0.000001)) {
        return;
      }
      node.params := node.params[index := param.(value := Number(newVal))];
      node.UpdateParam(index, values);
    }
  }

  /**
   * The reordering of `beginDragSelection`: the selected nodes, ordered by
   * position, are spliced out and pushed back at the end.
   */
  method DragOrder(nodes: seq<D.Node>, selected: seq<D.Node>) returns (r: seq<D.Node>)
    requires Distinct(nodes)
    ensures r == Filter(nodes, Not(In(selected))) + Filter(nodes, In(selected))
    ensures multiset(r) == multiset(nodes)
    ensures Distinct(r)
  {
    var ordered := Filter(nodes, In(selected));
    OrderedSelection(nodes, selected);
    var kept := SpliceOut(nodes, ordered);
    r := PushAll(kept, ordered);
    KeptAreUnselected(nodes, selected);
    FilterPartition(nodes, In(selected));
    FilterDistinct(nodes, Not(In(selected)));
    AppendDistinct(nodes, selected);
  }

  /** The splice loop of `beginDragSelection`: each ordered node is removed where `indexOf` finds it. */
  method SpliceOut(nodes: seq<D.Node>, ordered: seq<D.Node>) returns (r: seq<D.Node>)
    requires Distinct(nodes)
    ensures r == Filter(nodes, NotIn(ordered))
  {
    r := nodes;
    var k := 0;
    assert ordered[..0] == [];
    FilterKeepsAll(nodes, NotIn(ordered[..0]));
    while k < |ordered|
      invariant k <= |ordered|
      invariant r == Filter(nodes, NotIn(ordered[..k]))
    {
      var node := ordered[k];
      var idx := FirstIndex(r, node);
      SpliceStep(nodes, ordered, k);
      if idx >= 0 {
        FilterDistinct(nodes, NotIn(ordered[..k]));
        RemoveAt(r, idx);
        r := r[..idx] + r[idx + 1..];
      } else {
        NothingToSplice(r, node);
      }
      k := k + 1;
    }
    assert ordered[..k] == ordered;
  }

  /** The push loop of `beginDragSelection`. */
  method PushAll(nodes: seq<D.Node>, ordered: seq<D.Node>) returns (r: seq<D.Node>)
    ensures r == nodes + ordered
  {
    r := nodes;
    var k := 0;
    while k < |ordered|
      invariant k <= |ordered|
      invariant r == nodes + ordered[..k]
    {
      assert ordered[..k + 1] == ordered[..k] + [ordered[k]];
      r := r + [ordered[k]];
      k := k + 1;
    }
    assert ordered[..k] == ordered;
  }

  /** Removing the `k`-th ordered node from what is left removes it from the start list too. */
  lemma SpliceStep(start: seq<D.Node>, ordered: seq<D.Node>, k: nat)
    requires k < |ordered|
    ensures Filter(Filter(start, NotIn(ordered[..k])), Without(ordered[k])) == Filter(start, NotIn(ordered[..k + 1]))
  {
    assert ordered[..k + 1] == ordered[..k] + [ordered[k]];
    FilterThen(start, NotIn(ordered[..k]), Without(ordered[k]), NotIn(ordered[..k + 1]));
  }

  /** A list without `x` is its own filter by `y !== x`. */
  lemma NothingToSplice(s: seq<D.Node>, x: D.Node)
    requires x !in s
    ensures Filter(s, Without(x)) == s
  {
    FilterKeepsAll(s, Without(x));
  }

  /**
   * The selected nodes listed by their position in the drawing order, as
   * `beginDragSelection` sorts them: each selected node that is drawn,
   * once, in increasing position.
   */
  lemma OrderedSelection(nodes: seq<D.Node>, selected: seq<D.Node>)
    requires Distinct(nodes)
    ensures var r := Filter(nodes, In(selected));
      Distinct(r)
      && (forall x :: x in r <==> x in nodes && x in selected)
      && forall a, b :: 0 <= a < b < |r| ==> FirstIndex(nodes, r[a]) < FirstIndex(nodes, r[b])
  {
    var r := Filter(nodes, In(selected));
    FilterDistinct(nodes, In(selected));
    forall x ensures x in r <==> x in nodes && x in selected {
      FilterMembers(nodes, In(selected), x);
    }
    FilterKeepsPositions(nodes, In(selected));
  }

  /** A filter of a distinct list keeps the elements' relative positions. */
  lemma {:induction false} FilterKeepsPositions(s: seq<D.Node>, p: D.Node -> bool)
    requires Distinct(s)
    ensures var r := Filter(s, p);
      forall a, b :: 0 <= a < b < |r| ==> FirstIndex(s, r[a]) < FirstIndex(s, r[b])
    decreases |s|
  {
    if |s| > 0 {
      var init := s[..|s| - 1];
      var x := s[|s| - 1];
      FilterKeepsPositions(init, p);
      var r0 := Filter(init, p);
      var r := Filter(s, p);
      forall y | y in init ensures FirstIndex(s, y) == FirstIndex(init, y) {
        PrefixIndex(init, x, y);
      }
      assert s == init + [x];
      assert FirstIndex(s, x) == |s| - 1 by {
        assert x !in init;
      }
      forall a, b | 0 <= a < b < |r| ensures FirstIndex(s, r[a]) < FirstIndex(s, r[b]) {
        assert r[a] == r0[a];
        FilterMembers(init, p, r0[a]);
        if b < |r0| {
          assert r[b] == r0[b];
          FilterMembers(init, p, r0[b]);
        }
      }
    }
  }

  /** Positions in a list are positions in the list extended at its end. */
  lemma {:induction false} PrefixIndex(init: seq<D.Node>, x: D.Node, y: D.Node)
    requires y in init
    ensures FirstIndex(init + [x], y) == FirstIndex(init, y)
    decreases |init|
  {
    if init[0] != y {
      assert (init + [x])[1..] == init[1..] + [x];
      PrefixIndex(init[1..], x, y);
    }
  }

  /** The nodes left after splicing out the ordered selection are the unselected ones. */
  lemma KeptAreUnselected(nodes: seq<D.Node>, selected: seq<D.Node>)
    ensures Filter(nodes, NotIn(Filter(nodes, In(selected)))) == Filter(nodes, Not(In(selected)))
  {
    var ordered := Filter(nodes, In(selected));
    forall i | 0 <= i < |nodes| ensures NotIn(ordered)(nodes[i]) == Not(In(selected))(nodes[i]) {
      FilterMembers(nodes, In(selected), nodes[i]);
    }
    FilterEquivalent(nodes, NotIn(ordered), Not(In(selected)));
  }

  /** Moving the selected nodes to the end keeps the node list free of duplicates. */
  lemma AppendDistinct(nodes: seq<D.Node>, selected: seq<D.Node>)
    requires Distinct(nodes)
    requires Distinct(Filter(nodes, Not(In(selected)))) && Distinct(Filter(nodes, In(selected)))
    ensures Distinct(Filter(nodes, Not(In(selected))) + Filter(nodes, In(selected)))
  {
    var a, b := Filter(nodes, Not(In(selected))), Filter(nodes, In(selected));
    forall i, j | 0 <= i < |a| <= j < |a| + |b| ensures (a + b)[i] != (a + b)[j] {
      FilterMembers(nodes, Not(In(selected)), a[i]);
      FilterMembers(nodes, In(selected), b[j - |a|]);
    }
  }
}
