/**
 * LFONodeUI of js/nodes/lfo-node.js: a low-frequency oscillator that
 * reports `center + depth · shape(phase)` to its subscribers every frame,
 * or, in its random mode, holds a new random level once per period.
 *
 * The parameter handlers are closures over the context `initAudio`
 * received, so within them a context is always present; what varies is
 * whether the oscillator, amplitude and offset nodes still exist
 * (`graph`, cleared by `onRemoved`). The AudioParam writes
 * (`setTargetAtTime`) are modelled as the targets they set. `Math.sin` and
 * `Math.random()` are parameters. Slider values are modelled as finite
 * numbers.
 */
module LfoNode {
  import opened JsValues
  import opened Subscribers
  import opened HostMath
  import D = DspNode

  /** `this.waveforms`; index 4 is the random mode. */
  const WaveformCount: nat := 5
  const RandomIndex: nat := 4

  /** Changes smaller than this are not reported. */
  const Tolerance: real := 0.0001

  /** The slowest rate the oscillator runs at, `Math.max(0.0001, freq)`. */
  function EffectiveRate(freq: real): (r: real)
    ensures r >= 0.0001 && (freq >= 0.0001 ==> r == freq)
  {
    if freq < 0.0001 then 0.0001 else freq
  }

  /** The random mode's hold time `1 / Math.max(0.0001, freq)`. */
  function Period(freq: real): (p: real)
    ensures p > 0.0
  {
    1.0 / EffectiveRate(freq)
  }

  /** The phase after a frame: `(phase + delta · max(0.0001, freq)) % 1`. */
  function NextPhase(phase: real, delta: real, freq: real): real {
    Rem(phase + delta * EffectiveRate(freq), 1.0)
  }

  /** A phase in [0, 1) stays in [0, 1) for a frame time that is not negative. */
  lemma NextPhaseInTurn(phase: real, delta: real, freq: real)
    requires 0.0 <= phase < 1.0 && delta >= 0.0
    ensures 0.0 <= NextPhase(phase, delta, freq) < 1.0
  {
    MulSigns(delta, EffectiveRate(freq));
  }

  /** The triangle shape: rising 0→1 on [0, 0.25), falling 1→−1 on [0.25, 0.75), rising −1→0 after. */
  function Triangle(p: real): real {
    if p < 0.25 then p * 4.0
    else if p < 0.75 then 2.0 - p * 4.0
    else p * 4.0 - 4.0
  }

  /** The sawtooth shape `2p − 1`. */
  function Saw(p: real): real {
    2.0 * p - 1.0
  }

  /** The square shape: 1 on the first half of the cycle, −1 on the second. */
  function Square(p: real): real {
    if p < 0.5 then 1.0 else -1.0
  }

  /** The `switch` of `tick`: sine for index 0 and every index it does not name. */
  function Shape(index: nat, p: real, sin: real -> real): real {
    if index == 1 then Triangle(p)
    else if index == 2 then Saw(p)
    else if index == 3 then Square(p)
    else sin(p * Pi * 2.0)
  }

  /** Every shape stays within [−1, 1] over a cycle when the sine does. */
  lemma ShapeBounded(index: nat, p: real, sin: real -> real)
    requires 0.0 <= p < 1.0
    requires -1.0 <= sin(p * Pi * 2.0) <= 1.0
    ensures -1.0 <= Shape(index, p, sin) <= 1.0
  {
  }

  /**
   * The triangle's pieces meet: it is continuous at 0.25 and 0.75, and it
   * ends a cycle where it starts one, so the wave has no jumps.
   */
  lemma TriangleContinuous()
    ensures 0.25 * 4.0 == Triangle(0.25) == 1.0
    ensures 2.0 - 0.75 * 4.0 == Triangle(0.75) == -1.0
    ensures 1.0 * 4.0 - 4.0 == Triangle(0.0) == 0.0
  {
  }

  /** The sawtooth rises from −1 towards 1 and never reaches 1; the square takes only ±1. */
  lemma SawAndSquareRange(p: real)
    requires 0.0 <= p < 1.0
    ensures -1.0 <= Saw(p) < 1.0
    ensures Square(p) == 1.0 || Square(p) == -1.0
    ensures Square(p) == 1.0 <==> p < 0.5
  {
  }

  /** The reported level `center + depth · shape` stays within `depth` of the centre. */
  lemma LevelWithinDepth(center: real, depth: real, shape: real)
    requires depth >= 0.0 && -1.0 <= shape <= 1.0
    ensures center - depth <= Level(center, depth, shape) <= center + depth
  {
    MulSigns(depth, 1.0 - shape);
    MulSigns(depth, shape + 1.0);
  }

  /** `Math.max(0, Math.min(4, Math.round(value)))` */
  function WaveformIndex(value: real): (idx: nat)
    ensures idx < WaveformCount
    ensures 0 <= Round(value) < WaveformCount as int ==> idx == Round(value)
  {
    var r := Round(value);
    if r > 4 then 4 else if r < 0 then 0 else r
  }

  /** The reported level `center + depth · shape`. */
  function Level(center: real, depth: real, shape: real): real {
    center + depth * shape
  }

  /** The time taken by n whole periods. */
  function Periods(n: nat, period: real): real {
    n as real * period
  }

  lemma PeriodsNext(n: nat, period: real)
    ensures Periods(n + 1, period) == Periods(n, period) + period
  {
  }

  /** Subtracting one period lowers the number of whole periods in the timer by one. */
  lemma PeriodsDrop(t: real, p: real)
    requires p > 0.0 && t >= p
    ensures (t / p).Floor >= 1
    ensures ((t - p) / p).Floor == (t / p).Floor - 1
  {
    var a := (t - p) / p;
    var b := t / p - 1.0;
    assert a * p == t - p;
    assert b * p == (t / p) * p - p;
    assert (a - b) * p == 0.0;
    MulSigns(a - b, p);
    QuotientSign(t - p, p);
  }

  /** The reported value and the notifications sent so far. */
  datatype Reporting = Reporting(value: real, notified: seq<Subscriber>)

  /** One `updateCurrentValue(t)`: a target at least `Tolerance` away becomes the value and notifies every subscriber once. */
  function Report(prev: Reporting, subs: seq<Subscriber>, t: real): (r: Reporting)
    ensures prev.notified <= r.notified && Abs(r.value - t) < Tolerance
  {
    if Abs(t - prev.value) >= Tolerance then Reporting(t, prev.notified + subs) else prev
  }

  /**
   * The first `n` random samples reported in turn, the k-th drawn with
   * `draws(k)` and reported at the level `center + depth · (2 · draws(k) − 1)`.
   */
  function ReportDraws(start: Reporting, subs: seq<Subscriber>, center: real, depth: real, draws: nat -> real, n: nat): Reporting
  {
    if n == 0 then start
    else Report(ReportDraws(start, subs, center, depth, draws, n - 1), subs, Level(center, depth, draws(n - 1) * 2.0 - 1.0))
  }

  /**
   * Reporting samples never withdraws a notification, each sample adds
   * the subscribers at most once, and after the last sample the reported
   * value is within `Tolerance` of its level.
   */
  lemma {:induction false} ReportDrawsSettles(start: Reporting, subs: seq<Subscriber>, center: real, depth: real, draws: nat -> real, n: nat)
    ensures var r := ReportDraws(start, subs, center, depth, draws, n);
      && start.notified <= r.notified
      && |r.notified| <= |start.notified| + n * |subs|
      && (n > 0 ==> Abs(r.value - Level(center, depth, draws(n - 1) * 2.0 - 1.0)) < Tolerance)
  {
    if n > 0 {
      ReportDrawsSettles(start, subs, center, depth, draws, n - 1);
    }
  }

  class Node {
    /** The DSPNode part of this object. */
    const base: D.Node
    var phase: real
    var currentValue: real
    var frequency: real
    var depth: real
    var center: real
    var waveformIndex: nat
    var randomMode: bool
    var randomTimer: real
    var randomValue: real
    var subscribers: seq<Subscriber>
    /** The `updateParam` calls made on subscribers so far, oldest first. */
    var updates: seq<Subscriber>
    /** `initAudio` has run: `this.context` is set. */
    var started: bool
    /** The oscillator, amplitude and offset nodes exist. */
    var graph: bool
    /** The targets last given to the oscillator's frequency, the amplitude gain and the offset. */
    var rateTarget: real
    var depthGainTarget: real
    var offsetTarget: real

    ghost predicate Valid()
      reads this
    {
      && 0.0 <= phase < 1.0
      && waveformIndex < WaveformCount
      && (randomMode <==> waveformIndex == RandomIndex)
      && randomTimer >= 0.0
      && -1.0 <= randomValue < 1.0
      && (graph ==> started)
    }

    constructor(base: D.Node)
      ensures Valid() && this.base == base
      ensures phase == 0.0 && currentValue == 1.0 && frequency == 1.0 && depth == 0.5 && center == 1.0
      ensures waveformIndex == 0 && !randomMode && randomTimer == 0.0 && randomValue == 0.0
      ensures subscribers == [] && updates == [] && !started && !graph
    {
      this.base := base;
      phase := 0.0;
      currentValue := 1.0;
      frequency := 1.0;
      depth := 0.5;
      center := 1.0;
      waveformIndex := 0;
      randomMode := false;
      randomTimer := 0.0;
      randomValue := 0.0;
      subscribers := [];
      updates := [];
      started := false;
      graph := false;
      rateTarget := 0.0;
      depthGainTarget := 0.0;
      offsetTarget := 0.0;
    }

    /** The state part of `initAudio`: the graph starts at the current rate, depth and centre. */
    method InitAudio()
      requires Valid()
      modifies this`started, this`graph, this`rateTarget, this`depthGainTarget, this`offsetTarget, this`currentValue
      ensures Valid() && started && graph
      ensures rateTarget == frequency && depthGainTarget == depth && offsetTarget == center
      ensures currentValue == center
    {
      started := true;
      graph := true;
      rateTarget := frequency;
      depthGainTarget := depth;
      offsetTarget := center;
      currentValue := center;
    }

    /**
     * `updateCurrentValue(value)`: a value at least 1e-4 away from the
     * current one replaces it and every subscriber is asked to update.
     */
    method UpdateCurrentValue(value: real)
      modifies this`currentValue, this`updates
      ensures var taken := Abs(value - old(currentValue)) >= Tolerance;
        && currentValue == (if taken then value else old(currentValue))
        && updates == (if taken then old(updates) + subscribers else old(updates))
      ensures Abs(currentValue - value) < Tolerance
    {
      if Abs(value - currentValue) < Tolerance {
        return;
      }
      currentValue := value;
      updates := updates + subscribers;
    }

    /** `updateDepthGain`: the amplitude is silenced in the random mode and follows the depth otherwise. */
    method UpdateDepthGain()
      modifies this`depthGainTarget
      ensures depthGainTarget == (if !graph then old(depthGainTarget) else if randomMode then 0.0 else depth)
    {
      if !graph {
        return;
      }
      depthGainTarget := if randomMode then 0.0 else depth;
    }

    /**
     * `triggerRandomSample`: `Math.random()` (the argument `draw`) is mapped
     * to a level in [−1, 1) and `center + depth · level` is reported.
     */
    method TriggerRandomSample(draw: real)
      requires Valid() && 0.0 <= draw < 1.0
      modifies this`randomValue, this`offsetTarget, this`currentValue, this`updates
      ensures Valid()
      ensures randomValue == draw * 2.0 - 1.0
      ensures offsetTarget == (if graph then Level(center, depth, randomValue) else old(offsetTarget))
      ensures var target := Level(center, depth, randomValue);
        var taken := Abs(target - old(currentValue)) >= Tolerance;
        && currentValue == (if taken then target else old(currentValue))
        && updates == (if taken then old(updates) + subscribers else old(updates))
    {
      randomValue := draw * 2.0 - 1.0;
      var target := Level(center, depth, randomValue);
      if graph {
        offsetTarget := target;
      }
      UpdateCurrentValue(target);
    }

    /** The rate slider's handler: a new frequency restarts the random timer in the random mode. */
    method SetRate(v: real)
      requires Valid()
      modifies this`frequency, this`rateTarget, this`randomTimer
      ensures Valid()
      ensures frequency == v
      ensures rateTarget == (if graph then v else old(rateTarget))
      ensures randomTimer == (if randomMode then 0.0 else old(randomTimer))
    {
      frequency := v;
      if graph {
        rateTarget := v;
      }
      if randomMode {
        randomTimer := 0.0;
      }
    }

    /** `setDepth(value)`: in the random mode the held level is re-reported at the new depth. */
    method SetDepth(value: real)
      requires Valid()
      modifies this`depth, this`depthGainTarget, this`offsetTarget, this`currentValue, this`updates
      ensures Valid()
      ensures depth == value
      ensures depthGainTarget == (if !graph then old(depthGainTarget) else if randomMode then 0.0 else value)
      ensures var target := Level(center, value, randomValue);
        var taken := randomMode && graph && Abs(target - old(currentValue)) >= Tolerance;
        && offsetTarget == (if randomMode && graph then target else old(offsetTarget))
        && currentValue == (if taken then target else old(currentValue))
        && updates == (if taken then old(updates) + subscribers else old(updates))
    {
      depth := value;
      UpdateDepthGain();
      if randomMode && graph {
        var target := Level(center, depth, randomValue);
        offsetTarget := target;
        UpdateCurrentValue(target);
      }
    }

    /** `setCenter(value)`: the offset moves to the centre, plus the held level in the random mode. */
    method SetCenter(value: real)
      requires Valid()
      modifies this`center, this`offsetTarget, this`currentValue, this`updates
      ensures Valid()
      ensures center == value
      ensures var target := if randomMode then Level(value, depth, randomValue) else value;
        var taken := graph && Abs(target - old(currentValue)) >= Tolerance;
        && offsetTarget == (if graph then target else old(offsetTarget))
        && currentValue == (if taken then target else old(currentValue))
        && updates == (if taken then old(updates) + subscribers else old(updates))
    {
      center := value;
      if !graph {
        return;
      }
      var target := if randomMode then Level(value, depth, randomValue) else value;
      offsetTarget := target;
      UpdateCurrentValue(target);
    }

    /**
     * `setWaveform(value)`: the rounded, clamped index selects the shape;
     * index 4 enters the random mode with a fresh sample (`draw` is its
     * `Math.random()`), any other index reports the centre.
     */
    method SetWaveform(value: real, draw: real)
      requires Valid() && 0.0 <= draw < 1.0
      modifies this`waveformIndex, this`randomMode, this`randomTimer, this`randomValue, base`params
      modifies this`depthGainTarget, this`offsetTarget, this`currentValue, this`updates
      ensures Valid()
      ensures waveformIndex == WaveformIndex(value)
      ensures randomMode <==> waveformIndex == RandomIndex
      ensures base.params == if |old(base.params)| > 3
        then old(base.params)[3 := old(base.params)[3].(effectiveValue := Number(Fin(waveformIndex as real)))]
        else old(base.params)
      ensures depthGainTarget == (if !graph then old(depthGainTarget) else if randomMode then 0.0 else depth)
      ensures randomMode ==> randomTimer == 0.0 && randomValue == draw * 2.0 - 1.0
      ensures !randomMode ==> randomTimer == old(randomTimer) && randomValue == old(randomValue)
      ensures var target := if randomMode then Level(center, depth, randomValue) else center;
        var taken := Abs(target - old(currentValue)) >= Tolerance;
        && offsetTarget == (if graph then target else old(offsetTarget))
        && currentValue == (if taken then target else old(currentValue))
        && updates == (if taken then old(updates) + subscribers else old(updates))
    {
      var idx := WaveformIndex(value);
      waveformIndex := idx;
      randomMode := idx == RandomIndex;
      if |base.params| > 3 {
        base.params := base.params[3 := base.params[3].(effectiveValue := Number(Fin(idx as real)))];
      }
      ApplyMode(draw);
    }

    /**
     * The rest of `setWaveform` once the index is set: the depth gain and
     * the offset follow the mode, and the random mode starts from a fresh
     * sample.
     */
    method ApplyMode(draw: real)
      requires Valid() && 0.0 <= draw < 1.0
      modifies this`randomTimer, this`randomValue
      modifies this`depthGainTarget, this`offsetTarget, this`currentValue, this`updates
      ensures Valid()
      ensures depthGainTarget == (if !graph then old(depthGainTarget) else if randomMode then 0.0 else depth)
      ensures randomMode ==> randomTimer == 0.0 && randomValue == draw * 2.0 - 1.0
      ensures !randomMode ==> randomTimer == old(randomTimer) && randomValue == old(randomValue)
      ensures var target := if randomMode then Level(center, depth, randomValue) else center;
        var taken := Abs(target - old(currentValue)) >= Tolerance;
        && offsetTarget == (if graph then target else old(offsetTarget))
        && currentValue == (if taken then target else old(currentValue))
        && updates == (if taken then old(updates) + subscribers else old(updates))
    {
      if randomMode {
        randomTimer := 0.0;
        randomValue := 0.0;
        UpdateDepthGain();
        if graph {
          offsetTarget := center;
        }
        TriggerRandomSample(draw);
      } else {
        UpdateDepthGain();
        if graph {
          offsetTarget := center;
        }
        UpdateCurrentValue(center);
      }
    }

    /**
     * `tick(delta)`. In the random mode the timer advances by `delta`
     * and a new sample is drawn for every whole period it holds (the k-th
     * with `draws(k)`), leaving less than one period; without a sample
     * the held level is re-reported. Otherwise the phase advances and
     * `center + depth · shape(phase)` is reported. `triggers` counts the
     * samples drawn.
     */
    method Tick(delta: real, draws: nat -> real, sin: real -> real) returns (ghost triggers: nat)
      requires Valid() && delta >= 0.0
      requires forall k :: 0.0 <= draws(k) < 1.0
      modifies this`phase, this`randomTimer, this`randomValue, this`offsetTarget, this`currentValue, this`updates
      ensures Valid()
      ensures !started ==>
        && triggers == 0 && phase == old(phase) && randomTimer == old(randomTimer)
        && randomValue == old(randomValue) && currentValue == old(currentValue) && updates == old(updates)
        && offsetTarget == old(offsetTarget)
      ensures started && randomMode ==>
        && phase == old(phase)
        && RandomTicked(old(randomTimer), old(randomValue), Reporting(old(currentValue), old(updates)), old(offsetTarget),
                        delta, draws, triggers)
      ensures started && !randomMode ==>
        && triggers == 0
        && phase == NextPhase(old(phase), delta, frequency)
        && randomTimer == old(randomTimer) && randomValue == old(randomValue) && offsetTarget == old(offsetTarget)
        && var value := Level(center, depth, Shape(waveformIndex, phase, sin));
           var taken := Abs(value - old(currentValue)) >= Tolerance;
           && currentValue == (if taken then value else old(currentValue))
           && updates == (if taken then old(updates) + subscribers else old(updates))
    {
      triggers := 0;
      if !started {
        return;
      }
      if randomMode {
        triggers := TickRandom(delta, draws);
        return;
      }
      NextPhaseInTurn(phase, delta, frequency);
      phase := NextPhase(phase, delta, frequency);
      UpdateCurrentValue(Level(center, depth, Shape(waveformIndex, phase, sin)));
    }

    /**
     * The state after the random branch of `tick(delta)` drew `triggers`
     * samples, from a timer `timer0`, a held sample `sample0`, the
     * reporting state `reported0` and an offset target `offset0`: the
     * timer lost that many whole periods and holds less than one; the
     * held sample is the last one drawn; every drawn level was reported
     * in turn, or the held level once when nothing was drawn; and the
     * offset follows the last drawn level while the graph exists.
     */
    ghost predicate RandomTicked(timer0: real, sample0: real, reported0: Reporting, offset0: real,
                                 delta: real, draws: nat -> real, triggers: nat)
      reads this
    {
      && randomTimer == timer0 + delta - Periods(triggers, Period(frequency))
      && 0.0 <= randomTimer < Period(frequency)
      && (triggers == 0 ==> randomValue == sample0)
      && (triggers > 0 ==> randomValue == draws(triggers - 1) * 2.0 - 1.0)
      && Abs(currentValue - Level(center, depth, randomValue)) < Tolerance
      && Reporting(currentValue, updates) ==
           (if triggers == 0 then Report(reported0, subscribers, Level(center, depth, randomValue))
            else ReportDraws(reported0, subscribers, center, depth, draws, triggers))
      && offsetTarget == (if graph && triggers > 0 then Level(center, depth, randomValue) else offset0)
    }

    /** The random-mode branch of `tick(delta)`. */
    method TickRandom(delta: real, draws: nat -> real) returns (ghost triggers: nat)
      requires Valid() && delta >= 0.0
      requires forall k :: 0.0 <= draws(k) < 1.0
      modifies this`randomTimer, this`randomValue, this`offsetTarget, this`currentValue, this`updates
      ensures Valid()
      ensures RandomTicked(old(randomTimer), old(randomValue), Reporting(old(currentValue), old(updates)), old(offsetTarget),
                           delta, draws, triggers)
    {
      var period := Period(frequency);
      randomTimer := randomTimer + delta;
      var sampled, count := SampleDue(period, draws);
      triggers := count;
      if !sampled {
        UpdateCurrentValue(Level(center, depth, randomValue));
      }
    }

    /**
     * The loop of the random tick: one sample for every whole period in
     * the timer; `sampled` says whether there was any, `count` how many.
     */
    method SampleDue(period: real, draws: nat -> real) returns (sampled: bool, count: nat)
      requires Valid() && period == Period(frequency)
      requires forall k :: 0.0 <= draws(k) < 1.0
      modifies this`randomTimer, this`randomValue, this`offsetTarget, this`currentValue, this`updates
      ensures Valid()
      ensures sampled <==> count > 0
      ensures randomTimer == old(randomTimer) - Periods(count, period)
      ensures 0.0 <= randomTimer < period
      ensures count == 0 ==> randomValue == old(randomValue)
      ensures count > 0 ==> randomValue == draws(count - 1) * 2.0 - 1.0
      ensures count > 0 ==> Abs(currentValue - (Level(center, depth, randomValue))) < Tolerance
      ensures ReportDraws(Reporting(old(currentValue), old(updates)), subscribers, center, depth, draws, count)
        == Reporting(currentValue, updates)
      ensures offsetTarget == (if graph && count > 0 then Level(center, depth, randomValue) else old(offsetTarget))
    {
      sampled := false;
      count := 0;
      while randomTimer >= period
        invariant Valid()
        invariant randomTimer == old(randomTimer) - Periods(count, period)
        invariant sampled <==> count > 0
        invariant count == 0 ==> randomValue == old(randomValue)
        invariant count > 0 ==> randomValue == draws(count - 1) * 2.0 - 1.0
        invariant count > 0 ==> Abs(currentValue - (Level(center, depth, randomValue))) < Tolerance
        invariant ReportDraws(Reporting(old(currentValue), old(updates)), subscribers, center, depth, draws, count)
          == Reporting(currentValue, updates)
        invariant offsetTarget == (if graph && count > 0 then Level(center, depth, randomValue) else old(offsetTarget))
        decreases (randomTimer / period).Floor
      {
        PeriodsDrop(randomTimer, period);
        PeriodsNext(count, period);
        randomTimer := randomTimer - period;
        TriggerRandomSample(draws(count));
        count := count + 1;
        sampled := true;
      }
    }

    /** `getValue()` */
    method GetValue() returns (v: real)
      ensures v == currentValue
    {
      v := currentValue;
    }

    /** `addSubscriber(node, paramIndex)` */
    method AddSubscriber(node: D.NodeId, paramIndex: nat)
      modifies this`subscribers
      ensures subscribers == old(subscribers) + [Subscriber(node, paramIndex)]
    {
      subscribers := subscribers + [Subscriber(node, paramIndex)];
    }

    /** `removeSubscriber(node, paramIndex)` */
    method RemoveSubscriber(node: D.NodeId, paramIndex: nat)
      modifies this`subscribers
      ensures subscribers == Removed(old(subscribers), node, paramIndex)
    {
      subscribers := Removed(subscribers, node, paramIndex);
    }

    /** The state part of `onRemoved`: the audio nodes are gone; the subscribers are kept. */
    method OnRemoved()
      requires Valid()
      modifies this`graph
      ensures Valid() && !graph
    {
      graph := false;
    }
  }
}
