/**
 * PitchShiftNodeUI of js/nodes/pitch-shifter-node.js, the control-thread
 * side of the pitch shifter: the latency estimate used before the
 * worklet reports one, the semitone, fine and mix handlers, the pitch
 * ratio sent to the worklet, the dry-path delay that compensates the
 * latency, and the worklet's latency report.
 *
 * `Math.pow(2, total / 12)` is a floating-point library call; the model
 * receives it as the function `exp2`. The AudioParam writes
 * (`setTargetAtTime`) are modelled as the values they target.
 */
module PitchShifterNode {
  import opened JsValues
  import Config = PitchShiftConfig

  const DefaultFftSize: nat := 2048
  const DefaultOverlap: nat := 4
  const MinRatio: real := 0.25
  const MaxRatio: real := 4.0
  const MaxDryDelay: real := 0.9

  /**
   * `estimateLatency(fftSize, overlap)`: fftSize − max(1, floor(fftSize /
   * max(2, floor(overlap)))), never below 0.
   */
  function EstimateLatency(fftSize: nat, overlap: real): (latency: nat)
    ensures latency <= fftSize
    ensures fftSize >= 1 ==> latency < fftSize
  {
    var slices := if overlap.Floor < 2 then 2 else overlap.Floor;
    var hop := if fftSize / slices < 1 then 1 else fftSize / slices;
    if fftSize < hop then 0 else fftSize - hop
  }

  /**
   * For a size the worklet's sanitiser produces and an overlap that
   * divides it, the estimate is exactly the worklet's `latencySamples`
   * for that configuration.
   */
  lemma EstimateMatchesWorklet(fftSize: nat, overlap: nat)
    requires Config.IsFftSize(fftSize) && 2 <= overlap <= fftSize && fftSize % overlap == 0
    ensures EstimateLatency(fftSize, overlap as real)
         == Config.LatencySamples(fftSize, Config.HopSize(fftSize, overlap))
    ensures EstimateLatency(fftSize, overlap as real) == fftSize - fftSize / overlap
  {
    assert (overlap as real).Floor == overlap;
    Config.HopTilesFrame(fftSize, overlap);
  }

  /**
   * At the default overlap of 4 the latency is the frame less a quarter
   * of it, for every frame of at least 4 samples; the node's default
   * frame of 2048 gives 1536 samples.
   */
  lemma DefaultOverlapLatency(fftSize: nat)
    requires fftSize >= 4
    ensures EstimateLatency(fftSize, DefaultOverlap as real) == fftSize - fftSize / 4
    ensures fftSize == DefaultFftSize ==> EstimateLatency(fftSize, DefaultOverlap as real) == 1536
  {
    assert (DefaultOverlap as real).Floor == 4;
  }

  /** `Math.max(0, Math.min(1, value))`: NaN stays NaN. */
  function ClampMix(value: Num): (mix: Num)
    ensures value.NaN? <==> mix.NaN?
    ensures !mix.NaN? ==> mix.Fin? && 0.0 <= mix.v <= 1.0
    ensures value.Fin? && 0.0 <= value.v <= 1.0 ==> mix == value
  {
    Max(Fin(0.0), Min(Fin(1.0), value))
  }

  /** The dry gain `1 - mix`. */
  function DryGain(mix: Num): Num {
    Add(Fin(1.0), Neg(mix))
  }

  /** With a clamped, non-NaN mix the dry and wet gains are both in [0, 1] and sum to 1. */
  lemma GainsCrossfade(value: Num)
    requires !value.NaN?
    ensures var mix := ClampMix(value);
      mix.Fin? && DryGain(mix).Fin? && DryGain(mix).v + mix.v == 1.0
      && 0.0 <= DryGain(mix).v <= 1.0 && 0.0 <= mix.v <= 1.0
  {
  }

  /**
   * `computePitchRatio`: 2^(total / 12) for total = semitones + cents /
   * 100, clamped to [0.25, 4]. A NaN power (from a NaN semitone or cent
   * value) passes through the clamp unchanged.
   */
  function PitchRatio(semitones: Num, cents: Num, exp2: Num -> Num): (r: Num)
    ensures var p := exp2(Div(Add(semitones, Div(cents, Fin(100.0))), Fin(12.0)));
      && (p.NaN? <==> r.NaN?)
      && (!p.NaN? ==> r.Fin? && MinRatio <= r.v <= MaxRatio)
      && (p.Fin? && MinRatio <= p.v <= MaxRatio ==> r == p)
  {
    var total := Add(semitones, Div(cents, Fin(100.0)));
    var ratio := exp2(Div(total, Fin(12.0)));
    Min(Fin(MaxRatio), Max(Fin(MinRatio), ratio))
  }

  /** The pitch ratio always lies in the worklet's own ratio range, whose clamp then leaves it alone. */
  lemma RatioWithinWorkletRange(semitones: Num, cents: Num, exp2: Num -> Num)
    requires !exp2(Div(Add(semitones, Div(cents, Fin(100.0))), Fin(12.0))).NaN?
    ensures PitchRatio(semitones, cents, exp2).Fin?
    ensures 0.25 <= PitchRatio(semitones, cents, exp2).v <= 4.0
  {
  }

  /** `Math.min(0.9, Math.max(0, latencySamples / sampleRate))` */
  function DryDelaySeconds(latencySamples: real, sampleRate: real): (s: real)
    requires sampleRate > 0.0
    ensures 0.0 <= s <= MaxDryDelay
    ensures 0.0 <= latencySamples / sampleRate <= MaxDryDelay ==> s == latencySamples / sampleRate
    ensures latencySamples / sampleRate > MaxDryDelay ==> s == MaxDryDelay
    ensures latencySamples <= 0.0 ==> s == 0.0
  {
    var q := latencySamples / sampleRate;
    if latencySamples <= 0.0 then
      assert q <= 0.0 by { QuotientNonPositive(latencySamples, sampleRate); }
      0.0
    else
      assert q > 0.0;
      if q > MaxDryDelay then MaxDryDelay else q
  }

  lemma QuotientNonPositive(a: real, b: real)
    requires a <= 0.0 && b > 0.0
    ensures a / b <= 0.0
  {
    assert (a / b) * b == a;
  }

  /** `typeof value === 'number' ? value : 0` */
  function NumberOrZero(value: Val): (n: Num)
    ensures value.Number? ==> n == value.n
    ensures !value.Number? ==> n == Fin(0.0)
  {
    if value.Number? then value.n else Fin(0.0)
  }

  class Node {
    var semitones: Num
    var cents: Num
    var mix: Num
    var pitchRatio: Num
    var latencySamples: real
    /** The targets last given to the dry and wet gains and to the dry-path delay. */
    var dryGain: Num
    var wetGain: Num
    var dryDelay: real
    /** The sample rate of the audio context the node was started in. */
    const sampleRate: real

    ghost predicate Valid()
      reads this
    {
      sampleRate > 0.0
    }

    /**
     * The constructor followed by the state `initAudio` sets up: the
     * estimated latency, the dry delay compensating it and the mix gains.
     */
    constructor(sampleRate: real)
      requires sampleRate > 0.0
      ensures Valid() && this.sampleRate == sampleRate
      ensures semitones == Fin(0.0) && cents == Fin(0.0) && mix == Fin(1.0) && pitchRatio == Fin(1.0)
      ensures latencySamples == EstimateLatency(DefaultFftSize, DefaultOverlap as real) as real
      ensures dryDelay == DryDelaySeconds(latencySamples, sampleRate)
      ensures dryGain == Fin(0.0) && wetGain == Fin(1.0)
    {
      this.sampleRate := sampleRate;
      semitones := Fin(0.0);
      cents := Fin(0.0);
      mix := Fin(1.0);
      pitchRatio := Fin(1.0);
      latencySamples := EstimateLatency(DefaultFftSize, DefaultOverlap as real) as real;
      new;
      dryDelay := DryDelaySeconds(latencySamples, sampleRate);
      dryGain := DryGain(Fin(1.0));
      wetGain := Fin(1.0);
    }

    /** `setSemitones(value)`: a non-number stores 0; the ratio is recomputed. */
    method SetSemitones(value: Val, exp2: Num -> Num)
      modifies this
      ensures semitones == NumberOrZero(value) && cents == old(cents)
      ensures pitchRatio == PitchRatio(semitones, cents, exp2)
      ensures mix == old(mix) && latencySamples == old(latencySamples)
      ensures dryGain == old(dryGain) && wetGain == old(wetGain) && dryDelay == old(dryDelay)
    {
      semitones := NumberOrZero(value);
      pitchRatio := PitchRatio(semitones, cents, exp2);
    }

    /** `setFine(value)`: a non-number stores 0; the ratio is recomputed. */
    method SetFine(value: Val, exp2: Num -> Num)
      modifies this
      ensures cents == NumberOrZero(value) && semitones == old(semitones)
      ensures pitchRatio == PitchRatio(semitones, cents, exp2)
      ensures mix == old(mix) && latencySamples == old(latencySamples)
      ensures dryGain == old(dryGain) && wetGain == old(wetGain) && dryDelay == old(dryDelay)
    {
      cents := NumberOrZero(value);
      pitchRatio := PitchRatio(semitones, cents, exp2);
    }

    /** `setMix(value)` and `updateMix`: the dry gain gets 1 − mix and the wet gain mix. */
    method SetMix(value: Num)
      modifies this
      ensures mix == ClampMix(value)
      ensures dryGain == DryGain(mix) && wetGain == mix
      ensures !value.NaN? ==> dryGain.Fin? && wetGain.Fin? && dryGain.v + wetGain.v == 1.0
      ensures semitones == old(semitones) && cents == old(cents) && pitchRatio == old(pitchRatio)
      ensures latencySamples == old(latencySamples) && dryDelay == old(dryDelay)
    {
      mix := ClampMix(value);
      dryGain := DryGain(mix);
      wetGain := mix;
      if !value.NaN? {
        GainsCrossfade(value);
      }
    }

    /**
     * `handleWorkletMessage(data)`: only an object whose `type` is
     * 'latency' and whose `samples` converts to a finite number changes
     * the latency, and then the dry delay follows it.
     */
    method HandleWorkletMessage(data: Val, parse: string -> Num)
      requires Valid()
      modifies this
      ensures Valid()
      ensures var samples := ToNumber(Get(data, "samples"), parse);
        if Truthy(data) && IsObject(data) && Get(data, "type") == Str("latency") && samples.Fin?
        then latencySamples == samples.v && dryDelay == DryDelaySeconds(samples.v, sampleRate)
        else latencySamples == old(latencySamples) && dryDelay == old(dryDelay)
      ensures semitones == old(semitones) && cents == old(cents) && pitchRatio == old(pitchRatio)
      ensures mix == old(mix) && dryGain == old(dryGain) && wetGain == old(wetGain)
    {
      if !Truthy(data) || !IsObject(data) {
        return;
      }
      if Get(data, "type") == Str("latency") {
        var samples := ToNumber(Get(data, "samples"), parse);
        if samples.Fin? {
          latencySamples := samples.v;
          dryDelay := DryDelaySeconds(latencySamples, sampleRate);
        }
      }
    }
  }
}
