/**
 * ChaosNodeUI of js/nodes/chaos-node.js: a bank of sine voices an octave
 * apart whose frequencies and phases come from a seeded Park–Miller
 * "minimal standard" generator, the sanitisers of its four parameters,
 * and the value it reports to its subscribers.
 *
 * The object is modelled after `initAudio`; `base` is its DSPNode part
 * and `live` says whether its audio graph exists (`context && sumGain`).
 * `Math.random()` is passed in where the source calls it and `Math.sin`
 * is a parameter. The oscillators' periodic waves, the parameter
 * records `initAudio` builds and the host-side voice teardown are not
 * part of the model.
 */
module ChaosNode {
  import opened JsValues
  import opened Subscribers
  import opened HostMath
  import D = DspNode
  import SpectralEngine

  // ---------------------------------------------------------------------
  // Seeds and the Lehmer generator

  /** The generator's prime modulus, 2^31 − 1. */
  const Modulus: int := 2147483647
  /** The multiplier 7^5. */
  const Multiplier: int := 16807

  lemma FloorIs(x: real, n: int)
    requires n as real <= x < n as real + 1.0
    ensures x.Floor == n
  {
  }

  /**
   * `((s % 1) + 1) % 1` with JavaScript's `%`: the fractional part of
   * s, in [0, 1) for every finite s, negative ones included.
   */
  function NormalizeSeed(s: real): (n: real)
    ensures 0.0 <= n < 1.0
    ensures n == s - s.Floor as real
  {
    var t := Rem(s, 1.0);
    var u := t + 1.0;
    var n := Rem(u, 1.0);
    NormalizeIsFraction(s, t, u, n);
    n
  }

  lemma NormalizeIsFraction(s: real, t: real, u: real, n: real)
    requires t == Rem(s, 1.0) && u == t + 1.0 && n == Rem(u, 1.0)
    ensures 0.0 <= n < 1.0 && n == s - s.Floor as real
  {
    assert t == s - Trunc(s) as real;
    assert n == u - Trunc(u) as real;
    if s >= 0.0 {
      FloorIs(s, Trunc(s));
      FloorIs(u, 1);
    } else if t == 0.0 {
      FloorIs(s, Trunc(s));
      FloorIs(u, 1);
    } else {
      assert -1.0 < t < 0.0;
      FloorIs(u, 0);
      FloorIs(s, Trunc(s) - 1);
    }
  }

  /** The start state `Math.floor(n * 2147483646) + 1` for a normalised seed n. */
  function InitialState(n: real): (state: int)
    requires 0.0 <= n < 1.0
    ensures 1 <= state < Modulus
  {
    var x := n * 2147483646.0;
    assert 0.0 <= x < 2147483646.0;
    x.Floor + 1
  }

  /** One step of the generator: state · 16807 mod (2^31 − 1). */
  function Step(state: int): int {
    (state * Multiplier) % Modulus
  }

  /**
   * The generator never reaches 0 from a state in [1, 2^31 − 2]:
   * 16807 · 1407677000 − 11017 · (2^31 − 1) = 1, so a product
   * divisible by the modulus would make the state itself divisible by it.
   */
  lemma StepStaysInRange(state: int)
    requires 1 <= state < Modulus
    ensures 1 <= Step(state) < Modulus
  {
    var q := (state * Multiplier) / Modulus;
    if (state * Multiplier) % Modulus == 0 {
      MultipleOfModulus(state, q);
    }
  }

  /** A state whose product with the multiplier is a multiple of the modulus is itself one. */
  lemma MultipleOfModulus(state: int, q: int)
    requires state * Multiplier == Modulus * q
    ensures state == Modulus * (q * 1407677000 - state * 11017)
  {
    assert Multiplier * 1407677000 - 11017 * Modulus == 1;
    calc {
      state;
      state * (Multiplier * 1407677000 - 11017 * Modulus);
      { assert state * (Multiplier * 1407677000) == (state * Multiplier) * 1407677000; }
      (state * Multiplier) * 1407677000 - state * 11017 * Modulus;
      Modulus * q * 1407677000 - state * 11017 * Modulus;
    }
  }

  /** The state after k draws from the start state s. */
  function StateAfter(s: int, k: nat): (state: int)
    requires 1 <= s < Modulus
    ensures 1 <= state < Modulus
  {
    if k == 0 then s
    else
      var prev := StateAfter(s, k - 1);
      StepStaysInRange(prev);
      Step(prev)
  }

  /** The value of the k-th draw (counting from 0): a fraction strictly between 0 and 1. */
  function DrawAt(s: int, k: nat): (r: real)
    requires 1 <= s < Modulus
    ensures 0.0 < r < 1.0
  {
    StateAfter(s, k + 1) as real / Modulus as real
  }

  /** The closure `createRandom(seed)` returns, with its captured state. */
  class Random {
    var state: int

    ghost predicate Valid()
      reads this
    {
      1 <= state < Modulus
    }

    /**
     * `createRandom(seed)`: a non-finite seed is replaced by
     * `Math.random()` (the argument `fallback`), the seed is normalised
     * into [0, 1) and scaled to a state in [1, 2^31 − 2].
     */
    constructor(seed: Num, fallback: real)
      requires 0.0 <= fallback < 1.0
      ensures Valid()
      ensures state == InitialState(NormalizeSeed(if seed.Fin? then seed.v else fallback))
    {
      var normalized := NormalizeSeed(if seed.Fin? then seed.v else fallback);
      state := InitialState(normalized);
    }

    /** One call of the closure: advance the state and return it as a fraction of the modulus. */
    method Next() returns (value: real)
      requires Valid()
      modifies this
      ensures Valid()
      ensures state == Step(old(state))
      ensures value == state as real / Modulus as real && 0.0 < value < 1.0
    {
      StepStaysInRange(state);
      state := (state * Multiplier) % Modulus;
      value := state as real / Modulus as real;
    }
  }

  // ---------------------------------------------------------------------
  // Parameter sanitisers

  /** `Number.isFinite(value) ? value : current` */
  function FiniteOr(value: Val, current: real): (r: real)
    ensures value.Number? && value.n.Fin? ==> r == value.n.v
    ensures !(value.Number? && value.n.Fin?) ==> r == current
  {
    if value.Number? && value.n.Fin? then value.n.v else current
  }

  /** `setBaseRate`: at least 0.02; a non-finite value keeps the current rate. */
  function BaseRateAfter(value: Val, current: real): (r: real)
    ensures r >= 0.02
    ensures r == FiniteOr(value, current) || r == 0.02
    ensures FiniteOr(value, current) >= 0.02 ==> r == FiniteOr(value, current)
  {
    var v := FiniteOr(value, current);
    if v < 0.02 then 0.02 else v
  }

  /** `setOctaves`: a whole number of octaves, at least 1. */
  function OctavesAfter(value: Val, current: int): (r: int)
    ensures r >= 1
    ensures r == Round(FiniteOr(value, current as real)) || r == 1
    ensures Round(FiniteOr(value, current as real)) >= 1 ==> r == Round(FiniteOr(value, current as real))
  {
    var v := Round(FiniteOr(value, current as real));
    if v < 1 then 1 else v
  }

  /** `setDepth`: clamped to [0, 1]. */
  function DepthAfter(value: Val, current: real): (r: real)
    ensures 0.0 <= r <= 1.0
    ensures 0.0 <= FiniteOr(value, current) <= 1.0 ==> r == FiniteOr(value, current)
  {
    var v := FiniteOr(value, current);
    if v > 1.0 then 1.0 else if v < 0.0 then 0.0 else v
  }

  /** `setSeed`: the fractional part, in [0, 1). */
  function SeedAfter(value: Val, current: real): (r: real)
    ensures 0.0 <= r < 1.0
    ensures 0.0 <= FiniteOr(value, current) < 1.0 ==> r == FiniteOr(value, current)
  {
    var v := FiniteOr(value, current);
    var r := NormalizeSeed(v);
    assert 0.0 <= v < 1.0 ==> r == v by {
      if 0.0 <= v < 1.0 {
        FloorIs(v, 0);
      }
    }
    r
  }

  // ---------------------------------------------------------------------
  // Voices

  datatype VoiceState = VoiceState(frequency: real, phase: real)

  /** `Math.pow(2, i)` */
  function Octave(i: nat): (r: real)
    ensures r >= 1.0
  {
    SpectralEngine.Pow2(i) as real
  }

  /**
   * Voice i of `rebuildChaosVoices`: a frequency between base·2^i and
   * twice that, placed by the first draw, and a phase placed by the
   * second draw.
   */
  function ChaosVoice(base: real, i: nat, r1: real, r2: real): VoiceState {
    var minFreq := base * Octave(i);
    var maxFreq := minFreq * 2.0;
    VoiceState(minFreq + (maxFreq - minFreq) * r1, r2 * Pi * 2.0)
  }

  /** With draws in (0, 1) voice i lies strictly inside its octave and its phase inside (0, 2π). */
  lemma ChaosVoiceInOctave(base: real, i: nat, r1: real, r2: real)
    requires base > 0.0 && 0.0 < r1 < 1.0 && 0.0 < r2 < 1.0
    ensures var v := ChaosVoice(base, i, r1, r2);
      base * Octave(i) < v.frequency < base * Octave(i + 1)
      && 0.0 < v.phase < TwoPi
  {
    var m := base * Octave(i);
    MulSigns(base, Octave(i));
    assert (m * 2.0 - m) * r1 == m * r1;
    MulSigns(m, r1);
    MulSigns(m, 1.0 - r1);
    assert m * r1 < m;
    assert Octave(i + 1) == 2.0 * Octave(i);
    assert base * Octave(i + 1) == m * 2.0;
    assert r2 * Pi * 2.0 == r2 * TwoPi;
  }

  /** `Math.max(1, Math.round(octaveCount))` */
  function VoiceCount(octaveCount: int): (n: nat)
    ensures n >= 1 && (octaveCount >= 1 ==> n == octaveCount)
  {
    if octaveCount < 1 then 1 else octaveCount
  }

  /** The sum of `Math.sin(phase)` over the voices. */
  function SinSum(states: seq<VoiceState>, sin: real -> real): real
    decreases |states|
  {
    if |states| == 0 then 0.0 else SinSum(states[..|states| - 1], sin) + sin(states[|states| - 1].phase)
  }

  /** `computeValueFromStates`: the mean of the voices' sines scaled by the depth; 0 with no voices. */
  function ValueFromStates(states: seq<VoiceState>, depth: real, sin: real -> real): real {
    if |states| == 0 then 0.0 else (SinSum(states, sin) / |states| as real) * depth
  }

  lemma {:induction false} SinSumBounded(states: seq<VoiceState>, sin: real -> real)
    requires forall x :: -1.0 <= sin(x) <= 1.0
    ensures -(|states| as real) <= SinSum(states, sin) <= |states| as real
    decreases |states|
  {
    if |states| > 0 {
      SinSumBounded(states[..|states| - 1], sin);
    }
  }

  /** With sines in [−1, 1] and a depth in [0, 1] the reported value lies in [−depth, depth]. */
  lemma ValueWithinDepth(states: seq<VoiceState>, depth: real, sin: real -> real)
    requires forall x :: -1.0 <= sin(x) <= 1.0
    requires 0.0 <= depth
    ensures -depth <= ValueFromStates(states, depth, sin) <= depth
  {
    if |states| > 0 {
      SinSumBounded(states, sin);
      var n := |states| as real;
      var mean := SinSum(states, sin) / n;
      assert mean * n == SinSum(states, sin);
      assert (mean - 1.0) * n == SinSum(states, sin) - n;
      assert (mean + 1.0) * n == SinSum(states, sin) + n;
      MulSigns(mean - 1.0, n);
      MulSigns(mean + 1.0, n);
      assert -1.0 <= mean <= 1.0;
      MulSigns(1.0 - mean, depth);
      MulSigns(mean + 1.0, depth);
    }
  }

  /**
   * One frame of `tick(delta)`: every phase advances by frequency · delta
   * turns and is reduced with JavaScript's `%` by 2π.
   */
  function Advanced(states: seq<VoiceState>, delta: real): (r: seq<VoiceState>)
    ensures |r| == |states|
  {
    seq(|states|, i requires 0 <= i < |states| => Advance(states[i], delta))
  }

  /** One voice's phase after a frame of `delta` seconds. */
  function Advance(v: VoiceState, delta: real): VoiceState {
    v.(phase := Rem(v.phase + v.frequency * delta * TwoPi, TwoPi))
  }

  /** Phases that start in [0, 2π) stay there when frequencies and the frame time are not negative. */
  lemma AdvancedPhasesInTurn(states: seq<VoiceState>, delta: real)
    requires delta >= 0.0
    requires forall i :: 0 <= i < |states| ==> states[i].frequency >= 0.0 && 0.0 <= states[i].phase
    ensures forall i :: 0 <= i < |Advanced(states, delta)| ==> 0.0 <= Advanced(states, delta)[i].phase < TwoPi
    ensures forall i :: 0 <= i < |states| ==> Advanced(states, delta)[i].frequency == states[i].frequency
  {
    forall i | 0 <= i < |states|
      ensures 0.0 <= Advanced(states, delta)[i].phase < TwoPi
    {
      var f := states[i].frequency * delta;
      MulSigns(states[i].frequency, delta);
      MulSigns(f, TwoPi);
      var a := states[i].phase + f * TwoPi;
      assert a >= 0.0;
      assert Advanced(states, delta)[i] == Advance(states[i], delta);
    }
  }

  /** The loop of `tick`: the advanced voices and the sum of their sines. */
  method AdvanceStates(states: seq<VoiceState>, delta: real, sin: real -> real) returns (next: seq<VoiceState>, sum: real)
    ensures next == Advanced(states, delta)
    ensures sum == SinSum(next, sin)
  {
    next := [];
    sum := 0.0;
    var i := 0;
    while i < |states|
      invariant 0 <= i <= |states|
      invariant next == Advanced(states, delta)[..i]
      invariant sum == SinSum(next, sin)
    {
      var v := Advance(states[i], delta);
      assert (next + [v])[..|next|] == next;
      assert Advanced(states, delta)[i] == v;
      assert Advanced(states, delta)[..i + 1] == Advanced(states, delta)[..i] + [v];
      next := next + [v];
      sum := sum + sin(v.phase);
      i := i + 1;
    }
  }

  /** `sum * (1 / n) * depth` is the mean of the sines scaled by the depth. */
  lemma TickValueIsMean(states: seq<VoiceState>, depth: real, sin: real -> real)
    requires |states| > 0
    ensures SinSum(states, sin) * (1.0 / |states| as real) * depth == ValueFromStates(states, depth, sin)
  {
  }

  /** Changes smaller than this are not reported. */
  const Tolerance: real := 0.0001

  /** `params[i].value = v; params[i].effectiveValue = v` when parameter i exists. */
  function SetParamValue(ps: seq<D.Param>, i: nat, v: real): (r: seq<D.Param>)
    ensures |r| == |ps|
  {
    if i < |ps| then ps[i := ps[i].(value := Number(Fin(v)), effectiveValue := Number(Fin(v)))] else ps
  }

  /** `params[i].effectiveValue = v` when parameter i exists. */
  function SetParamEffective(ps: seq<D.Param>, i: nat, v: real): (r: seq<D.Param>)
    ensures |r| == |ps|
  {
    if i < |ps| then ps[i := ps[i].(effectiveValue := Number(Fin(v)))] else ps
  }

  /** The voices built from the start state s: voice i uses draws 2i and 2i + 1. */
  ghost predicate BuiltFrom(states: seq<VoiceState>, base: real, s: int)
    requires 1 <= s < Modulus
  {
    forall i :: 0 <= i < |states| ==> states[i] == ChaosVoice(base, i, DrawAt(s, 2 * i), DrawAt(s, 2 * i + 1))
  }

  /** Voice i lies inside the octave starting at base·2^i. */
  ghost predicate InOctave(v: VoiceState, base: real, i: nat) {
    base * Octave(i) < v.frequency < base * Octave(i + 1)
  }

  ghost predicate InOctaves(states: seq<VoiceState>, base: real) {
    forall j :: 0 <= j < |states| ==> InOctave(states[j], base, j)
  }

  /** Appending the next voice, built from the next two draws, keeps both properties. */
  lemma AppendVoice(states: seq<VoiceState>, b: real, s0: int)
    requires b > 0.0 && 1 <= s0 < Modulus
    requires BuiltFrom(states, b, s0) && InOctaves(states, b)
    ensures var i := |states|;
      var next := states + [ChaosVoice(b, i, DrawAt(s0, 2 * i), DrawAt(s0, 2 * i + 1))];
      BuiltFrom(next, b, s0) && InOctaves(next, b)
  {
    var i := |states|;
    var v := ChaosVoice(b, i, DrawAt(s0, 2 * i), DrawAt(s0, 2 * i + 1));
    var next := states + [v];
    ChaosVoiceInOctave(b, i, DrawAt(s0, 2 * i), DrawAt(s0, 2 * i + 1));
    assert InOctave(v, b, i);
    forall j | 0 <= j < |next|
      ensures InOctave(next[j], b, j)
      ensures next[j] == ChaosVoice(b, j, DrawAt(s0, 2 * j), DrawAt(s0, 2 * j + 1))
    {
      if j < i {
        assert next[j] == states[j];
      }
    }
  }

  /**
   * The loop of `rebuildChaosVoices`: `count` voices from a fresh
   * generator seeded with `seed`, two draws per voice.
   */
  method BuildVoices(b: real, count: nat, seed: real) returns (states: seq<VoiceState>)
    requires b > 0.0 && 0.0 <= seed < 1.0
    ensures |states| == count
    ensures BuiltFrom(states, b, InitialState(NormalizeSeed(seed)))
    ensures InOctaves(states, b)
  {
    var rand := new Random(Fin(seed), 0.0);
    ghost var s0 := rand.state;
    states := [];
    var i := 0;
    while i < count
      invariant 0 <= i <= count && |states| == i
      invariant rand.Valid() && rand.state == StateAfter(s0, 2 * i)
      invariant BuiltFrom(states, b, s0) && InOctaves(states, b)
    {
      var r1 := rand.Next();
      var r2 := rand.Next();
      assert r1 == DrawAt(s0, 2 * i) && r2 == DrawAt(s0, 2 * i + 1);
      AppendVoice(states, b, s0);
      states := states + [ChaosVoice(b, i, r1, r2)];
      i := i + 1;
    }
  }

  class Node {
    /** The DSPNode part of this object. */
    const base: D.Node
    var baseRate: real
    var octaveCount: int
    var depth: real
    var seed: real
    var voiceStates: seq<VoiceState>
    var currentValue: real
    var subscribers: seq<Subscriber>
    /** The `updateParam` calls made on subscribers so far, oldest first. */
    var updates: seq<Subscriber>
    /** The audio graph exists (`this.context && this.sumGain`). */
    var live: bool

    ghost predicate Valid()
      reads this
    {
      baseRate >= 0.02 && octaveCount >= 1 && 0.0 <= depth <= 1.0 && 0.0 <= seed < 1.0
    }

    /** The constructor: `seed` is the `Math.random()` it draws. */
    constructor(base: D.Node, seed: real)
      requires 0.0 <= seed < 1.0
      ensures Valid() && this.base == base && this.seed == seed
      ensures baseRate == 0.2 && octaveCount == 4 && depth == 1.0
      ensures voiceStates == [] && currentValue == 0.0 && subscribers == [] && updates == [] && !live
    {
      this.base := base;
      baseRate := 0.2;
      octaveCount := 4;
      depth := 1.0;
      this.seed := seed;
      voiceStates := [];
      currentValue := 0.0;
      subscribers := [];
      updates := [];
      live := false;
    }

    /**
     * `updateCurrentValue(value)`: a finite value at least 1e-4 away from
     * the current one replaces it and every subscriber is asked to update.
     */
    method UpdateCurrentValue(value: Num)
      modifies this`currentValue, this`updates
      ensures var taken := value.Fin? && Abs(value.v - old(currentValue)) >= Tolerance;
        && currentValue == (if taken then value.v else old(currentValue))
        && updates == (if taken then old(updates) + subscribers else old(updates))
    {
      if !value.Fin? {
        return;
      }
      if Abs(value.v - currentValue) < Tolerance {
        return;
      }
      currentValue := value.v;
      updates := updates + subscribers;
    }

    /**
     * `rebuildChaosVoices`: max(1, round(octaveCount)) voices, voice i in
     * the octave starting at max(0.002, baseRate)·2^i, drawn from a fresh
     * generator seeded with `seed`; the reported value follows.
     */
    method RebuildChaosVoices(sin: real -> real)
      requires Valid() && live
      modifies this`voiceStates, this`currentValue, this`updates
      ensures Valid()
      ensures |voiceStates| == VoiceCount(octaveCount)
      ensures BuiltFrom(voiceStates, if baseRate < 0.002 then 0.002 else baseRate, InitialState(NormalizeSeed(seed)))
      ensures InOctaves(voiceStates, baseRate)
      ensures var value := ValueFromStates(voiceStates, depth, sin);
        var taken := Abs(value - old(currentValue)) >= Tolerance;
        && currentValue == (if taken then value else old(currentValue))
        && updates == (if taken then old(updates) + subscribers else old(updates))
    {
      var count := VoiceCount(octaveCount);
      var b := if baseRate < 0.002 then 0.002 else baseRate;
      var states := BuildVoices(b, count, seed);
      voiceStates := states;
      UpdateCurrentValue(Fin(ValueFromStates(voiceStates, depth, sin)));
    }

    /**
     * The voice part of `initAudio(ctx)`: the graph exists from now on,
     * the old voices are cleared and a fresh set is built.
     */
    method InitAudio(sin: real -> real)
      requires Valid()
      modifies this`live, this`voiceStates, this`currentValue, this`updates
      ensures Valid() && live
      ensures |voiceStates| == VoiceCount(octaveCount)
      ensures BuiltFrom(voiceStates, if baseRate < 0.002 then 0.002 else baseRate, InitialState(NormalizeSeed(seed)))
    {
      live := true;
      voiceStates := [];
      RebuildChaosVoices(sin);
    }

    /**
     * `tick(delta)`: with voices, every phase advances by one frame and
     * the mean of the sines, scaled by the depth, is reported.
     */
    method Tick(delta: real, sin: real -> real)
      modifies this`voiceStates, this`currentValue, this`updates
      ensures |old(voiceStates)| == 0 ==> voiceStates == old(voiceStates) && currentValue == old(currentValue) && updates == old(updates)
      ensures |old(voiceStates)| > 0 ==>
        && voiceStates == Advanced(old(voiceStates), delta)
        && var value := ValueFromStates(voiceStates, depth, sin);
           var taken := Abs(value - old(currentValue)) >= Tolerance;
           && currentValue == (if taken then value else old(currentValue))
           && updates == (if taken then old(updates) + subscribers else old(updates))
    {
      if |voiceStates| == 0 {
        return;
      }
      var invCount := 1.0 / |voiceStates| as real;
      var next, sum := AdvanceStates(voiceStates, delta, sin);
      voiceStates := next;
      TickValueIsMean(next, depth, sin);
      var value := sum * invCount * depth;
      assert value == ValueFromStates(voiceStates, depth, sin);
      UpdateCurrentValue(Fin(value));
    }

    /** `setBaseRate(value)` */
    method SetBaseRate(value: Val, sin: real -> real)
      requires Valid()
      modifies this, base
      ensures Valid()
      ensures baseRate == BaseRateAfter(value, old(baseRate))
      ensures base.params == SetParamValue(old(base.params), 0, baseRate)
      ensures octaveCount == old(octaveCount) && depth == old(depth) && seed == old(seed)
      ensures subscribers == old(subscribers) && live == old(live)
      ensures !live ==> voiceStates == old(voiceStates) && currentValue == old(currentValue) && updates == old(updates)
      ensures live ==> |voiceStates| == VoiceCount(octaveCount)
      ensures live ==> BuiltFrom(voiceStates, if baseRate < 0.002 then 0.002 else baseRate, InitialState(NormalizeSeed(seed)))
      ensures live ==> InOctaves(voiceStates, baseRate)
      ensures live ==> var v := ValueFromStates(voiceStates, depth, sin);
        var taken := Abs(v - old(currentValue)) >= Tolerance;
        && currentValue == (if taken then v else old(currentValue))
        && updates == (if taken then old(updates) + subscribers else old(updates))
    {
      var next := BaseRateAfter(value, baseRate);
      baseRate := next;
      base.params := SetParamValue(base.params, 0, next);
      if live {
        RebuildChaosVoices(sin);
      }
    }

    /** `setOctaves(value)` */
    method SetOctaves(value: Val, sin: real -> real)
      requires Valid()
      modifies this, base
      ensures Valid()
      ensures octaveCount == OctavesAfter(value, old(octaveCount))
      ensures base.params == SetParamValue(old(base.params), 1, octaveCount as real)
      ensures baseRate == old(baseRate) && depth == old(depth) && seed == old(seed)
      ensures subscribers == old(subscribers) && live == old(live)
      ensures !live ==> voiceStates == old(voiceStates) && currentValue == old(currentValue) && updates == old(updates)
      ensures live ==> |voiceStates| == octaveCount
      ensures live ==> BuiltFrom(voiceStates, if baseRate < 0.002 then 0.002 else baseRate, InitialState(NormalizeSeed(seed)))
      ensures live ==> InOctaves(voiceStates, baseRate)
      ensures live ==> var v := ValueFromStates(voiceStates, depth, sin);
        var taken := Abs(v - old(currentValue)) >= Tolerance;
        && currentValue == (if taken then v else old(currentValue))
        && updates == (if taken then old(updates) + subscribers else old(updates))
    {
      var next := OctavesAfter(value, octaveCount);
      octaveCount := next;
      base.params := SetParamValue(base.params, 1, next as real);
      if live {
        RebuildChaosVoices(sin);
      }
    }

    /** `setDepth(value)`: the reported value is recomputed from the voices at the new depth. */
    method SetDepth(value: Val, sin: real -> real)
      requires Valid()
      modifies this, base
      ensures Valid()
      ensures depth == DepthAfter(value, old(depth))
      ensures base.params == SetParamEffective(old(base.params), 2, depth)
      ensures baseRate == old(baseRate) && octaveCount == old(octaveCount) && seed == old(seed)
      ensures voiceStates == old(voiceStates) && subscribers == old(subscribers) && live == old(live)
      ensures var v := ValueFromStates(voiceStates, depth, sin);
        var taken := Abs(v - old(currentValue)) >= Tolerance;
        && currentValue == (if taken then v else old(currentValue))
        && updates == (if taken then old(updates) + subscribers else old(updates))
    {
      var next := DepthAfter(value, depth);
      depth := next;
      base.params := SetParamEffective(base.params, 2, next);
      UpdateCurrentValue(Fin(ValueFromStates(voiceStates, depth, sin)));
    }

    /** `setSeed(value)` */
    method SetSeed(value: Val, sin: real -> real)
      requires Valid()
      modifies this, base
      ensures Valid()
      ensures seed == SeedAfter(value, old(seed))
      ensures base.params == SetParamValue(old(base.params), 3, seed)
      ensures baseRate == old(baseRate) && octaveCount == old(octaveCount) && depth == old(depth)
      ensures subscribers == old(subscribers) && live == old(live)
      ensures !live ==> voiceStates == old(voiceStates) && currentValue == old(currentValue) && updates == old(updates)
      ensures live ==> BuiltFrom(voiceStates, if baseRate < 0.002 then 0.002 else baseRate, InitialState(seed))
      ensures live ==> |voiceStates| == VoiceCount(octaveCount) && InOctaves(voiceStates, baseRate)
      ensures live ==> var v := ValueFromStates(voiceStates, depth, sin);
        var taken := Abs(v - old(currentValue)) >= Tolerance;
        && currentValue == (if taken then v else old(currentValue))
        && updates == (if taken then old(updates) + subscribers else old(updates))
    {
      var next := SeedAfter(value, seed);
      seed := next;
      base.params := SetParamValue(base.params, 3, next);
      if live {
        RebuildChaosVoices(sin);
        assert NormalizeSeed(seed) == seed by { FloorIs(seed, 0); }
      }
    }

    /** `getValue()` */
    method GetValue() returns (v: real)
      ensures v == currentValue
    {
      v := currentValue;
    }

    /** `addSubscriber(node, paramIndex)` */
    method AddSubscriber(node: D.NodeId, paramIndex: nat)
      modifies this`subscribers
      ensures subscribers == old(subscribers) + [Subscriber(node, paramIndex)]
    {
      subscribers := subscribers + [Subscriber(node, paramIndex)];
    }

    /** `removeSubscriber(node, paramIndex)` */
    method RemoveSubscriber(node: D.NodeId, paramIndex: nat)
      modifies this`subscribers
      ensures subscribers == Removed(old(subscribers), node, paramIndex)
    {
      subscribers := Removed(subscribers, node, paramIndex);
    }

    /** The state part of `onRemoved`: no voices, no graph, no subscribers, value 0. */
    method OnRemoved()
      modifies this`voiceStates, this`live, this`subscribers, this`currentValue
      ensures voiceStates == [] && !live && subscribers == [] && currentValue == 0.0
    {
      voiceStates := [];
      live := false;
      subscribers := [];
      currentValue := 0.0;
    }
  }
}
