/**
 * PitchShiftChannel of worklets/hq-pitch-shifter.js: one phase-vocoder
 * channel with its input and output rings, its per-bin accumulator
 * arrays and the frame loop that turns buffered input into output.
 * The spectral arithmetic (hypot, atan2, cos, sin and the Hann window)
 * is computed through the host functions in `Math`; what is proved is
 * the bookkeeping around it.
 */
module PitchShiftChannel {
  import opened JsValues
  import opened HostMath
  import opened SpectralEngine
  import opened PitchShiftConfig
  import opened PitchShiftRing

  const MinRatio: real := 0.25
  const MaxRatio: real := 4.0

  /** The smoothing factor of _smoothRatio. */
  const RatioAlpha: real := 0.02

  /**
   * _smoothRatio: move 2% of the way towards the target (a target that
   * is not positive, NaN included, counts as 1), then clamp to [0.25, 4].
   */
  function SmoothedRatio(state: real, target: Num): (r: real)
    ensures MinRatio <= r <= MaxRatio
  {
    if target.PosInf? then MaxRatio
    else
      var desired := if Less(Fin(0.0), target) then target.v else 1.0;
      var next := state + (desired - state) * RatioAlpha;
      if next < MinRatio then MinRatio else if next > MaxRatio then MaxRatio else next
  }

  /** A target that is not positive is the same as a target of 1. */
  lemma NonPositiveTargetIsUnity(state: real, target: Num)
    requires !Less(Fin(0.0), target)
    ensures SmoothedRatio(state, target) == SmoothedRatio(state, Fin(1.0))
  {
  }

  /**
   * From a state inside the range, towards a target inside the range,
   * one step lands between the old state and the target.
   */
  lemma SmoothingMovesTowardsTarget(state: real, target: real)
    requires MinRatio <= state <= MaxRatio && MinRatio <= target <= MaxRatio
    ensures var r := SmoothedRatio(state, Fin(target));
      (state <= target ==> state <= r <= target) && (target <= state ==> target <= r <= state)
  {
    var next := state + (target - state) * RatioAlpha;
    if state <= target {
      assert (target - state) * RatioAlpha <= target - state;
    } else {
      assert (state - target) * RatioAlpha <= state - target;
    }
  }

  /** The unwrapped phase deviation `delta - 2π·round(delta / 2π)`, in [-π, π). */
  function PrincipalDeviation(delta: real): (r: real)
    ensures -Pi <= r < Pi
  {
    var turns := Round(delta / TwoPi);
    var r := delta - TwoPi * turns as real;
    assert r == TwoPi * (delta / TwoPi - turns as real);
    r
  }

  /** What one analysis bin contributes: its magnitude, its phase, the bin it moves to and the phase advance there. */
  datatype BinShift = BinShift(mag: real, phase: real, target: int, phaseInc: real)

  /** The per-bin computation of _processFrame's analysis loop. */
  function AnalyseBin(re: real, im: real, prev: real, expected: real, k: nat,
                      n: nat, hop: nat, ratio: real, freqPerBin: real, sampleRate: real,
                      math: Math): BinShift
    requires n > 0 && hop > 0 && freqPerBin > 0.0 && sampleRate > 0.0
  {
    var mag := math.hypot(re, im);
    var phase := math.atan2(im, re);
    var delta := PrincipalDeviation(phase - prev - expected);
    var trueFreqBin := k as real + (delta * n as real) / (TwoPi * hop as real);
    var shiftedHz := trueFreqBin * freqPerBin * ratio;
    BinShift(mag, phase, Round(shiftedHz / freqPerBin), TwoPi * shiftedHz * hop as real / sampleRate)
  }

  /** How many of the bins move to bin b. */
  function CountTo(shifts: seq<BinShift>, b: int): nat
  {
    if shifts == [] then 0
    else CountTo(shifts[..|shifts| - 1], b) + (if shifts[|shifts| - 1].target == b then 1 else 0)
  }

  /** The summed magnitude of the bins that move to bin b. */
  function MagTo(shifts: seq<BinShift>, b: int): real
  {
    if shifts == [] then 0.0
    else MagTo(shifts[..|shifts| - 1], b) + (if shifts[|shifts| - 1].target == b then shifts[|shifts| - 1].mag else 0.0)
  }

  /** The summed phase advance of the bins that move to bin b. */
  function IncTo(shifts: seq<BinShift>, b: int): real
  {
    if shifts == [] then 0.0
    else IncTo(shifts[..|shifts| - 1], b) + (if shifts[|shifts| - 1].target == b then shifts[|shifts| - 1].phaseInc else 0.0)
  }

  /** No bin outside [0, half] is ever credited: a target there is simply dropped. */
  lemma {:induction false} CountToOutOfRange(shifts: seq<BinShift>, b: int)
    requires forall k :: 0 <= k < |shifts| ==> shifts[k].target != b
    ensures CountTo(shifts, b) == 0 && MagTo(shifts, b) == 0.0 && IncTo(shifts, b) == 0.0
  {
    if shifts != [] {
      CountToOutOfRange(shifts[..|shifts| - 1], b);
    }
  }

  /**
   * The synthesis phase after adding the averaged advance: brought back
   * with JavaScript's `%` when it leaves [-2π, 2π].
   */
  function WrapPhase(p: real): (r: real)
    ensures -TwoPi <= r <= TwoPi
    ensures -TwoPi <= p <= TwoPi ==> r == p
  {
    if p > TwoPi || p < -TwoPi then Rem(p, TwoPi) else p
  }

  /** The Hann window coefficient of configure. */
  function Hann(i: nat, n: nat, math: Math): real
    requires n > 0
  {
    0.5 - 0.5 * math.cos(TwoPi * i as real / n as real)
  }

  function SumSquares(s: seq<real>): (e: real)
    ensures e >= 0.0
  {
    if s == [] then 0.0 else SumSquares(s[..|s| - 1]) + s[|s| - 1] * s[|s| - 1]
  }

  /** `input ? input[i] : 0` for the first `frames` samples. */
  function BlockInput(input: Option<seq<real>>, frames: nat): (s: seq<real>)
    requires input.Some? ==> |input.value| >= frames
    ensures |s| == frames
    ensures forall i :: 0 <= i < frames ==> s[i] == if input.Some? then input.value[i] else 0.0
  {
    if input.Some? then input.value[..frames] else Zeros(frames)
  }

  /** `outCount > 0 ? _popOutput() : 0` for each of `frames` slots, from the ring contents `ready`. */
  function BlockOutput(ready: seq<real>, frames: nat): (s: seq<real>)
    ensures |s| == frames
    ensures forall i :: 0 <= i < frames ==> s[i] == if i < |ready| then ready[i] else 0.0
  {
    seq(frames, i requires 0 <= i < frames => if i < |ready| then ready[i] else 0.0)
  }

  /** What the output ring still holds after `frames` slots were read from `ready`: what `BlockOutput` did not take. */
  function Leftover(ready: seq<real>, frames: nat): (s: seq<real>)
    ensures |s| == if frames < |ready| then |ready| - frames else 0
    ensures forall i :: 0 <= i < |s| ==> s[i] == ready[frames + i]
  {
    if |ready| <= frames then [] else ready[frames..]
  }

  /** Reading a block loses nothing: the samples read and those left over are the ring's, then zeros. */
  lemma BlockOutputThenLeftover(ready: seq<real>, frames: nat)
    ensures |ready| >= frames ==> BlockOutput(ready, frames) + Leftover(ready, frames) == ready
    ensures |ready| < frames ==> BlockOutput(ready, frames) == ready + Zeros(frames - |ready|) && Leftover(ready, frames) == []
  {
    if |ready| >= frames {
      assert BlockOutput(ready, frames) == ready[..frames];
      assert ready[..frames] + ready[frames..] == ready;
    }
  }

  method FillZero(a: array<real>, from: nat)
    requires from <= a.Length
    modifies a
    ensures forall i :: 0 <= i < from ==> a[i] == old(a[i])
    ensures forall i :: from <= i < a.Length ==> a[i] == 0.0
  {
    for i := from to a.Length
      invariant forall k :: 0 <= k < from ==> a[k] == old(a[k])
      invariant forall k :: from <= k < i ==> a[k] == 0.0
    {
      a[i] := 0.0;
    }
  }


  /** `a.copyWithin(0, start)`: the tail from `start` moves to the front; the rest is untouched. */
  method CopyWithin(a: array<real>, start: nat)
    requires start <= a.Length
    modifies a
    ensures a[..a.Length - start] == old(a[..])[start..]
    ensures a[a.Length - start..] == old(a[..])[a.Length - start..]
  {
    ghost var s := a[..];
    for i := 0 to a.Length - start
      invariant forall j :: 0 <= j < i ==> a[j] == s[j + start]
      invariant forall j :: i <= j < a.Length ==> a[j] == s[j]
    {
      a[i] := a[i + start];
    }
  }

  /** freqPerBin = sampleRate / fftSize: the width of one bin in Hz. */
  function BinWidth(sampleRate: real, size: nat): (width: real)
    requires sampleRate > 0.0 && size > 0
    ensures width > 0.0 && width * size as real == sampleRate
  {
    sampleRate / size as real
  }

  /** The expected phase advance per hop of bin 1: 2π·hop/size. */
  function PhaseAdvance(hop: nat, size: nat): (base: real)
    requires size > 0
  {
    TwoPi * hop as real / size as real
  }

  /** The expected phase of every bin: bin k advances k times the base advance per hop. */
  function ExpectedPhases(base: real, count: nat): (r: seq<real>)
    ensures |r| == count
  {
    seq(count, k => base * k as real)
  }

  /** The Hann window of configure, coefficient by coefficient. */
  function HannWindow(n: nat, math: Math): (r: seq<real>)
    requires n > 0
    ensures |r| == n
  {
    seq(n, i requires 0 <= i < n => Hann(i, n, math))
  }

  /** The windowed frame: sample i times window coefficient i. */
  function Windowed(frame: seq<real>, w: seq<real>): (r: seq<real>)
    requires |frame| == |w|
    ensures |r| == |w|
    ensures AllZero(frame) ==> AllZero(r)
  {
    seq(|w|, i requires 0 <= i < |w| => frame[i] * w[i])
  }

  /** The overlap-add of one inverse-transformed frame, windowed and scaled, onto the accumulator. */
  function AddScaled(acc: seq<real>, frame: seq<real>, w: seq<real>, scale: real): (r: seq<real>)
    requires |acc| == |frame| == |w|
    ensures |r| == |acc|
    ensures AllZero(acc) && AllZero(frame) ==> AllZero(r)
  {
    seq(|acc|, i requires 0 <= i < |acc| => acc[i] + frame[i] * w[i] * scale)
  }

  /**
   * Resynthesis of one bin from its accumulators: with at least one
   * contributor, the phase advances by the mean increment (wrapped) and
   * the bin gets the mean magnitude at that phase; with none, the bin is
   * silent and the phase stays.
   */
  function ResynthBin(phase: real, mag: real, inc: real, count: real, math: Math): (r: (real, real, real))
    ensures count <= 0.0 ==> r == (phase, 0.0, 0.0)
    ensures count > 0.0 ==> r.0 == WrapPhase(phase + inc / count)
    ensures -TwoPi <= phase <= TwoPi ==> -TwoPi <= r.0 <= TwoPi
    ensures mag == 0.0 ==> r.1 == 0.0 && r.2 == 0.0
  {
    if count > 0.0 then
      var p := WrapPhase(phase + inc / count);
      var m := mag / count;
      (p, m * math.cos(p), m * math.sin(p))
    else
      (phase, 0.0, 0.0)
  }

  /**
   * The spectrum of a real signal: for 0 < k < n bin n−k is the complex
   * conjugate of bin k, and the DC and Nyquist bins are real.
   */
  ghost predicate ConjugateSymmetric(re: seq<real>, im: seq<real>)
    requires |re| == |im| && |re| % 2 == 0
  {
    && (forall k :: 0 < k < |re| ==> re[|re| - k] == re[k] && im[|re| - k] == -im[k])
    && (|re| > 0 ==> im[0] == 0.0 && im[|re| / 2] == 0.0)
  }

  /** The accumulator arrays hold, for every bin b, the count, magnitude sum and increment sum credited to b. */
  ghost predicate Credited(shifts: seq<BinShift>, count: seq<real>, mag: seq<real>, inc: seq<real>)
  {
    && |count| == |mag| == |inc|
    && forall b :: 0 <= b < |count| ==>
      count[b] == CountTo(shifts, b) as real && mag[b] == MagTo(shifts, b) && inc[b] == IncTo(shifts, b)
  }

  /** One more analysed bin: it is credited to its target when that lies in range, and dropped otherwise. */
  lemma CreditStep(shifts: seq<BinShift>, s: BinShift, count: seq<real>, mag: seq<real>, inc: seq<real>)
    requires Credited(shifts, count, mag, inc)
    ensures 0 <= s.target < |count| ==>
      Credited(shifts + [s], count[s.target := count[s.target] + 1.0],
               mag[s.target := mag[s.target] + s.mag], inc[s.target := inc[s.target] + s.phaseInc])
    ensures !(0 <= s.target < |count|) ==> Credited(shifts + [s], count, mag, inc)
  {
    assert (shifts + [s])[..|shifts|] == shifts;
  }

  /** With every analysed magnitude zero, every magnitude sum is zero. */
  lemma {:induction false} MagToSilent(shifts: seq<BinShift>, b: int)
    requires forall k :: 0 <= k < |shifts| ==> shifts[k].mag == 0.0
    ensures MagTo(shifts, b) == 0.0
  {
    if shifts != [] {
      MagToSilent(shifts[..|shifts| - 1], b);
    }
  }

  /**
   * The state of one configuration of a channel: what configure derives
   * from the sanitised size and overlap, the arrays it allocates and the
   * two rings. configure replaces all of them at once, so they are the
   * constant fields of one object; the arrays' contents and the rings'
   * cursors are what processing changes.
   */
  class Vocoder {
    const sampleRate: real
    const fftSize: nat
    const overlap: nat
    const hopSize: nat
    const halfSize: nat
    const freqPerBin: real
    const window: array<real>
    const expectedPhase: array<real>
    const analysisPhase: array<real>
    const synthPhase: array<real>
    const synthMag: array<real>
    const synthPhaseInc: array<real>
    const synthCount: array<real>
    const inRing: Ring
    const outRing: Ring
    const fftReal: array<real>
    const fftImag: array<real>
    const synthesisBuffer: array<real>
    const fft: Fft
    const windowScale: real
    const latencySamples: nat
    ghost const Repr: set<object>

    /** The derived sizes, the array lengths, the footprint, and no two arrays of one length shared. */
    ghost predicate Sized()
    {
      && sampleRate > 0.0
      && 512 <= fftSize && fftSize % 2 == 0 && 2 <= overlap <= fftSize
      && 1 <= hopSize <= fftSize / 2 && halfSize == fftSize / 2
      && freqPerBin > 0.0
      && latencySamples == fftSize - hopSize
      && window.Length == fftSize && fftReal.Length == fftSize
      && fftImag.Length == fftSize && synthesisBuffer.Length == fftSize
      && expectedPhase.Length == halfSize + 1 && analysisPhase.Length == halfSize + 1
      && synthPhase.Length == halfSize + 1 && synthMag.Length == halfSize + 1
      && synthPhaseInc.Length == halfSize + 1 && synthCount.Length == halfSize + 1
      && inRing != outRing && inRing.data != outRing.data
      && inRing.data.Length == 4 * fftSize && outRing.data.Length == 4 * fftSize
      && fft.size == fftSize
      && window != fftReal && window != fftImag && window != synthesisBuffer
      && fftReal != fftImag && fftReal != synthesisBuffer && fftImag != synthesisBuffer
      && expectedPhase != analysisPhase && expectedPhase != synthPhase && expectedPhase != synthMag
      && expectedPhase != synthPhaseInc && expectedPhase != synthCount
      && analysisPhase != synthPhase && analysisPhase != synthMag && analysisPhase != synthPhaseInc
      && analysisPhase != synthCount && synthPhase != synthMag && synthPhase != synthPhaseInc
      && synthPhase != synthCount && synthMag != synthPhaseInc && synthMag != synthCount
      && synthPhaseInc != synthCount
      && Repr == {inRing, outRing, fft, fft.rev, window, expectedPhase, analysisPhase, synthPhase,
                  synthMag, synthPhaseInc, synthCount, fftReal, fftImag, synthesisBuffer,
                  inRing.data, outRing.data}
    }

    ghost predicate Valid()
      reads inRing, outRing, fft, fft.rev
    {
      Sized() && inRing.Valid() && outRing.Valid() && fft.Valid()
    }

    /** Between frames the three accumulators are all zero. */
    ghost predicate Idle()
      reads synthMag, synthPhaseInc, synthCount
    {
      forall k :: 0 <= k < synthCount.Length && k < synthMag.Length && k < synthPhaseInc.Length ==>
        synthMag[k] == 0.0 && synthPhaseInc[k] == 0.0 && synthCount[k] == 0.0
    }

    /**
     * The allocating part of configure(fftSize, overlap), for a size and
     * overlap already sanitised: hop, half size, bin width and latency,
     * the window and the expected phases filled, the other arrays
     * allocated, rings of 4·fftSize, the FFT, and the window scale. The
     * contents of the other arrays are left to reset.
     */
    constructor (sampleRate: real, size: nat, slices: nat, math: Math)
      requires sampleRate > 0.0
      requires IsFftSize(size) && 2 <= slices <= size && size % slices == 0
      ensures Valid() && fresh(Repr)
      ensures this.sampleRate == sampleRate && fftSize == size && overlap == slices
      ensures hopSize == HopSize(size, slices) && hopSize * overlap == fftSize
      ensures freqPerBin == BinWidth(sampleRate, size)
      ensures window[..] == HannWindow(fftSize, math)
      ensures expectedPhase[..] == ExpectedPhases(PhaseAdvance(hopSize, fftSize), halfSize + 1)
      ensures windowScale == ScaleFor(window[..], hopSize)
    {
      FftSizeIsPowerOfTwo(size);
      HopTilesFrame(size, slices);
      var hop := HopSize(size, slices);
      var half := size / 2;
      var input, output := NewRings(4 * size);
      var analysis, phases, mags, incs, counts, re, im, synthesis := AllocateBuffers(half + 1, size);
      var w, scale, expected, engine := BuildTables(size, hop, math);

      this.sampleRate := sampleRate;
      fftSize, overlap, hopSize, halfSize := size, slices, hop, half;
      freqPerBin := BinWidth(sampleRate, size);
      window, expectedPhase := w, expected;
      analysisPhase, synthPhase, synthMag, synthPhaseInc, synthCount := analysis, phases, mags, incs, counts;
      inRing, outRing := input, output;
      fftReal, fftImag, synthesisBuffer := re, im, synthesis;
      fft := engine;
      windowScale := scale;
      latencySamples := LatencySamples(size, hop);
      Repr := {input, output, engine, engine.rev, w, expected, analysis, phases, mags, incs, counts,
               re, im, synthesis, input.data, output.data};
    }

    /**
     * The buffer part of reset(): both rings emptied, the phase,
     * accumulator, synthesis and FFT arrays zeroed.
     */
    method Reset()
      requires Valid()
      modifies inRing, outRing, analysisPhase, synthPhase, synthMag, synthPhaseInc, synthCount,
        synthesisBuffer, fftReal, fftImag
      ensures Valid() && Idle()
      ensures inRing.Contents() == [] && outRing.Contents() == []
      ensures analysisPhase[..] == Zeros(halfSize + 1) && synthPhase[..] == Zeros(halfSize + 1)
      ensures synthesisBuffer[..] == Zeros(fftSize)
      ensures fftReal[..] == Zeros(fftSize) && fftImag[..] == Zeros(fftSize)
    {
      inRing.Clear();
      outRing.Clear();
      ZeroBins(analysisPhase, synthPhase, synthMag, synthPhaseInc, synthCount);
      ZeroThree(synthesisBuffer, fftReal, fftImag);
    }

    /**
     * The first loop of _processFrame: fftSize consecutive ring samples
     * from the read cursor on (wrapping), times the window; imaginary
     * parts zero.
     */
    method LoadFrame()
      requires Valid() && inRing.count >= fftSize
      modifies fftReal, fftImag
      ensures fftReal[..] == Windowed(inRing.Contents()[..fftSize], window[..])
      ensures fftImag[..] == Zeros(fftSize)
    {
      WindowPrefix(inRing.data[..], inRing.read, inRing.count, fftSize);
      LoadWindowed(inRing.data, inRing.read, window, fftReal, fftImag);
    }

    /**
     * The analysis loop of _processFrame over bins 0..half: each bin's
     * phase is stored, and its magnitude and phase advance are credited
     * to the target bin when that lies in [0, half].
     */
    method Analyse(ratio: real, math: Math) returns (ghost shifts: seq<BinShift>)
      requires Valid() && Idle()
      modifies analysisPhase, synthMag, synthPhaseInc, synthCount
      ensures |shifts| == halfSize + 1
      ensures forall k :: 0 <= k <= halfSize ==>
        shifts[k] == AnalyseBin(fftReal[k], fftImag[k], old(analysisPhase[k]), expectedPhase[k], k,
                                fftSize, hopSize, ratio, freqPerBin, sampleRate, math)
      ensures forall k :: 0 <= k <= halfSize ==> analysisPhase[k] == shifts[k].phase
      ensures Credited(shifts, synthCount[..], synthMag[..], synthPhaseInc[..])
    {
      assert Credited([], synthCount[..], synthMag[..], synthPhaseInc[..]);
      shifts := AnalyseBins(fftReal[..], fftImag[..], analysisPhase, expectedPhase[..], synthMag, synthPhaseInc, synthCount,
                            fftSize, hopSize, ratio, freqPerBin, sampleRate, math);
    }

    /**
     * The resynthesis part of _processFrame: the bins are rebuilt from
     * their accumulators (which end up cleared), mirrored into the
     * spectrum of a real signal and inverse-transformed in place.
     */
    method Resynthesise(math: Math) returns (ghost specRe: seq<real>, ghost specIm: seq<real>)
      requires Valid()
      modifies synthPhase, synthMag, synthPhaseInc, synthCount, fftReal, fftImag
      ensures Valid() && Idle()
      ensures forall k :: 0 <= k <= halfSize ==>
        synthPhase[k] == ResynthBin(old(synthPhase[k]), old(synthMag[k]), old(synthPhaseInc[k]), old(synthCount[k]), math).0
      ensures |specRe| == fftSize && |specIm| == fftSize && ConjugateSymmetric(specRe, specIm)
      ensures forall k :: 0 <= k <= halfSize ==>
        specRe[k] == ResynthBin(old(synthPhase[k]), old(synthMag[k]), old(synthPhaseInc[k]), old(synthCount[k]), math).1
      ensures forall k :: 0 < k < halfSize ==>
        specIm[k] == ResynthBin(old(synthPhase[k]), old(synthMag[k]), old(synthPhaseInc[k]), old(synthCount[k]), math).2
      ensures AllZero(specRe) && AllZero(specIm) ==> AllZero(fftReal[..]) && AllZero(fftImag[..])
    {
      ResynthesiseBins(synthPhase, synthMag, synthPhaseInc, synthCount, fftReal, fftImag, math);
      assert Idle();
      MirrorSpectrum(fftReal, fftImag, halfSize);
      specRe, specIm := fftReal[..], fftImag[..];
      fft.Transform(fftReal, fftImag, true);
    }

    /**
     * The output part of _processFrame: the frame in fftReal is windowed,
     * scaled and added to the accumulator, whose first hop samples go to
     * the output ring (`emitted`); the accumulator moves one hop on and
     * so does the input read cursor.
     */
    method Emit() returns (ghost emitted: seq<real>)
      requires Valid() && inRing.count >= hopSize
      modifies inRing, outRing, outRing.data, synthesisBuffer
      ensures Valid()
      ensures emitted == AddScaled(old(synthesisBuffer[..]), fftReal[..], window[..], windowScale)[..hopSize]
      ensures synthesisBuffer[..] ==
        AddScaled(old(synthesisBuffer[..]), fftReal[..], window[..], windowScale)[hopSize..] + Zeros(hopSize)
      ensures inRing.Contents() == old(inRing.Contents())[hopSize..]
      ensures outRing.Contents() == Last(old(outRing.Contents()) + emitted, outRing.data.Length)
    {
      OverlapAdd(synthesisBuffer, fftReal, window, windowScale);
      var ready := synthesisBuffer[..hopSize];
      emitted := ready;
      outRing.PushAll(ready);
      ShiftOut(synthesisBuffer, hopSize);
      inRing.Discard(hopSize);
    }

    /**
     * _processFrame(ratio): one frame in, one hop out. The input keeps
     * all but its oldest hop samples and the output ring gains the hop
     * samples `emitted`.
     */
    method ProcessFrame(ratio: real, math: Math) returns (ghost emitted: seq<real>)
      requires Valid() && Idle() && inRing.count >= fftSize
      modifies inRing, outRing, outRing.data, analysisPhase, synthPhase, synthMag, synthPhaseInc, synthCount,
        fftReal, fftImag, synthesisBuffer
      ensures Valid() && Idle()
      ensures |emitted| == hopSize
      ensures inRing.Contents() == old(inRing.Contents())[hopSize..]
      ensures outRing.Contents() == Last(old(outRing.Contents()) + emitted, outRing.data.Length)
    {
      ghost var shifts := AnalyseFrame(ratio, math);
      ghost var specRe, specIm := Resynthesise(math);
      emitted := Emit();
    }

    /**
     * The analysis part of _processFrame: load and window a frame,
     * transform it, and analyse and credit its bins.
     */
    method AnalyseFrame(ratio: real, math: Math) returns (ghost shifts: seq<BinShift>)
      requires Valid() && Idle() && inRing.count >= fftSize
      modifies analysisPhase, synthMag, synthPhaseInc, synthCount, fftReal, fftImag
      ensures Valid()
      ensures |shifts| == halfSize + 1
      ensures forall k :: 0 <= k <= halfSize ==>
        shifts[k] == AnalyseBin(fftReal[k], fftImag[k], old(analysisPhase[k]), expectedPhase[k], k,
                                fftSize, hopSize, ratio, freqPerBin, sampleRate, math)
      ensures forall k :: 0 <= k <= halfSize ==> analysisPhase[k] == shifts[k].phase
      ensures Credited(shifts, synthCount[..], synthMag[..], synthPhaseInc[..])
      ensures AllZero(Windowed(old(inRing.Contents())[..fftSize], window[..])) ==> AllZero(fftReal[..]) && AllZero(fftImag[..])
    {
      LoadFrame();
      fft.Transform(fftReal, fftImag, false);
      shifts := Analyse(ratio, math);
    }

    /**
     * The buffer part of processBlock at an already smoothed ratio: push
     * the block (zeros for a missing input), run every complete frame,
     * then fill the output from the output ring, zeros once it runs dry.
     * The samples consumed from the input ring are as many as `emitted`.
     */
    method ProcessBlock(input: Option<seq<real>>, output: array<real>, ratio: real, math: Math)
      returns (ghost emitted: seq<real>)
      requires Valid() && Idle() && output !in Repr
      requires input.Some? ==> |input.value| >= output.Length
      modifies inRing, inRing.data, outRing, outRing.data, analysisPhase, synthPhase, synthMag, synthPhaseInc,
        synthCount, fftReal, fftImag, synthesisBuffer, output
      ensures Valid() && Idle()
      ensures inRing.count < fftSize
      ensures var pushed := Last(old(inRing.Contents()) + BlockInput(input, output.Length), inRing.data.Length);
        |emitted| <= |pushed| && inRing.Contents() == pushed[|emitted|..]
      ensures output[..] == BlockOutput(Last(old(outRing.Contents()) + emitted, outRing.data.Length), output.Length)
      ensures outRing.Contents() == Leftover(Last(old(outRing.Contents()) + emitted, outRing.data.Length), output.Length)
    {
      inRing.PushAll(BlockInput(input, output.Length));
      emitted := RunFrames(ratio, math);
      PopInto(outRing, output);
    }

    /**
     * The `while (inCount >= fftSize)` loop of processBlock: frames run
     * until less than a frame is buffered. Each frame consumes one hop
     * of input and emits one hop of output, so as many samples leave the
     * input ring as are emitted.
     */
    method RunFrames(ratio: real, math: Math) returns (ghost emitted: seq<real>)
      requires Valid() && Idle()
      modifies inRing, outRing, outRing.data, analysisPhase, synthPhase, synthMag, synthPhaseInc, synthCount,
        fftReal, fftImag, synthesisBuffer
      ensures Valid() && Idle()
      ensures inRing.count < fftSize
      ensures |emitted| <= old(inRing.count) && inRing.Contents() == old(inRing.Contents())[|emitted|..]
      ensures outRing.Contents() == Last(old(outRing.Contents()) + emitted, outRing.data.Length)
    {
      ghost var start := inRing.Contents();
      ghost var outStart := outRing.Contents();
      emitted := [];
      while inRing.count >= fftSize
        invariant Valid() && Idle()
        invariant |emitted| <= |start| && inRing.Contents() == start[|emitted|..]
        invariant outRing.Contents() == Last(outStart + emitted, outRing.data.Length)
        decreases inRing.count
      {
        ghost var e := ProcessFrame(ratio, math);
        LastExtend(outStart, emitted, e, outRing.data.Length);
        assert start[|emitted|..][hopSize..] == start[|emitted| + hopSize..];
        emitted := emitted + e;
      }
    }
  }
  /** The first `n` samples of a circular window are the window of `n` samples. */
  lemma WindowPrefix(s: seq<real>, start: nat, count: nat, n: nat)
    requires start < |s| && n <= count <= |s|
    ensures Window(s, start, count)[..n] == Window(s, start, n)
  {
  }

  /**
   * The frame-loading loop of _processFrame on its own arrays: the
   * `window.Length` samples of `src` from `start` on (wrapping), times
   * the window, into `re`; zeros into `im`.
   */
  method LoadWindowed(src: array<real>, start: nat, window: array<real>, re: array<real>, im: array<real>)
    requires start < src.Length && window.Length <= src.Length
    requires re.Length == window.Length && im.Length == window.Length
    requires re != im && src != re && src != im && window != re && window != im
    modifies re, im
    ensures re[..] == Windowed(Window(src[..], start, window.Length), window[..])
    ensures im[..] == Zeros(window.Length)
  {
    ghost var frame := Window(src[..], start, window.Length);
    var index := start;
    for i := 0 to window.Length
      invariant index == WrapIn(start + i, src.Length)
      invariant forall j :: 0 <= j < i ==> re[j] == frame[j] * window[j] && im[j] == 0.0
    {
      re[i] := src[index] * window[i];
      im[i] := 0.0;
      ModOnce(index + 1, src.Length);
      index := (index + 1) % src.Length;
    }
    forall j | 0 <= j < window.Length
      ensures re[..][j] == Windowed(frame, window[..])[j]
    {
    }
    assert re[..] == Windowed(frame, window[..]);
    assert im[..] == Zeros(window.Length);
  }

  /** The five `fill(0)` calls of reset on the per-bin arrays. */
  method ZeroBins(a: array<real>, b: array<real>, c: array<real>, d: array<real>, e: array<real>)
    requires b.Length == a.Length && c.Length == a.Length && d.Length == a.Length && e.Length == a.Length
    requires a != b && a != c && a != d && a != e && b != c && b != d && b != e && c != d && c != e && d != e
    modifies a, b, c, d, e
    ensures a[..] == Zeros(a.Length) && b[..] == Zeros(a.Length) && c[..] == Zeros(a.Length)
    ensures d[..] == Zeros(a.Length) && e[..] == Zeros(a.Length)
  {
    for i := 0 to a.Length
      invariant forall j :: 0 <= j < i ==> a[j] == 0.0 && b[j] == 0.0 && c[j] == 0.0 && d[j] == 0.0 && e[j] == 0.0
    {
      a[i], b[i], c[i], d[i], e[i] := 0.0, 0.0, 0.0, 0.0, 0.0;
    }
    assert a[..] == Zeros(a.Length) && b[..] == Zeros(a.Length) && c[..] == Zeros(a.Length);
    assert d[..] == Zeros(a.Length) && e[..] == Zeros(a.Length);
  }

  /** Three equal-length arrays zeroed: the frame-sized `fill(0)` calls of reset, or the accumulators after resynthesis. */
  method ZeroThree(a: array<real>, b: array<real>, c: array<real>)
    requires b.Length == a.Length && c.Length == a.Length && a != b && a != c && b != c
    modifies a, b, c
    ensures a[..] == Zeros(a.Length) && b[..] == Zeros(a.Length) && c[..] == Zeros(a.Length)
  {
    for i := 0 to a.Length
      invariant forall j :: 0 <= j < i ==> a[j] == 0.0 && b[j] == 0.0 && c[j] == 0.0
    {
      a[i], b[i], c[i] := 0.0, 0.0, 0.0;
    }
    assert a[..] == Zeros(a.Length) && b[..] == Zeros(a.Length) && c[..] == Zeros(a.Length);
  }

  /**
   * The analysis loop of _processFrame on its own arrays (the spectrum
   * and the expected phases, which it only reads, as values): bin k of the
   * spectrum (re, im) is analysed against its previous phase and its
   * expected advance, its phase stored, and its contribution credited.
   */
  method AnalyseBins(re: seq<real>, im: seq<real>, phase: array<real>, expected: seq<real>,
                     mag: array<real>, inc: array<real>, count: array<real>,
                     n: nat, hop: nat, ratio: real, freqPerBin: real, sampleRate: real, math: Math)
    returns (ghost shifts: seq<BinShift>)
    requires n > 0 && hop > 0 && freqPerBin > 0.0 && sampleRate > 0.0
    requires |expected| == phase.Length && mag.Length == phase.Length
    requires inc.Length == phase.Length && count.Length == phase.Length
    requires phase.Length <= |re| && |im| == |re|
    requires phase != mag && phase != inc && phase != count
    requires mag != inc && mag != count && inc != count
    requires Credited([], count[..], mag[..], inc[..])
    modifies phase, mag, inc, count
    ensures |shifts| == phase.Length
    ensures forall k :: 0 <= k < phase.Length ==>
      shifts[k] == AnalyseBin(re[k], im[k], old(phase[k]), expected[k], k, n, hop, ratio, freqPerBin, sampleRate, math)
      && phase[k] == shifts[k].phase
    ensures Credited(shifts, count[..], mag[..], inc[..])
  {
    shifts := [];
    for k := 0 to phase.Length
      invariant |shifts| == k
      invariant forall j :: 0 <= j < k ==>
        shifts[j] == AnalyseBin(re[j], im[j], old(phase[j]), expected[j], j, n, hop, ratio, freqPerBin, sampleRate, math)
        && phase[j] == shifts[j].phase
      invariant forall j :: k <= j < phase.Length ==> phase[j] == old(phase[j])
      invariant Credited(shifts, count[..], mag[..], inc[..])
    {
      var s := AnalyseBin(re[k], im[k], phase[k], expected[k], k, n, hop, ratio, freqPerBin, sampleRate, math);
      phase[k] := s.phase;
      CreditBin(shifts, s, mag, inc, count);
      shifts := shifts + [s];
    }
  }

  /** The crediting step of the analysis loop: bin s.target gains s when it lies in range. */
  method CreditBin(ghost shifts: seq<BinShift>, s: BinShift, mag: array<real>, inc: array<real>, count: array<real>)
    requires mag != inc && mag != count && inc != count
    requires Credited(shifts, count[..], mag[..], inc[..])
    modifies mag, inc, count
    ensures Credited(shifts + [s], count[..], mag[..], inc[..])
  {
    CreditStep(shifts, s, count[..], mag[..], inc[..]);
    if 0 <= s.target < count.Length {
      mag[s.target] := mag[s.target] + s.mag;
      inc[s.target] := inc[s.target] + s.phaseInc;
      count[s.target] := count[s.target] + 1.0;
    }
  }

  /**
   * The resynthesis loop of _processFrame over the bins of `phase`: each
   * bin's phase, real and imaginary part come from its accumulators
   * (`ResynthBin`), and the accumulators are cleared. Entries of re and
   * im beyond the bins are not touched. The source clears bin k's
   * accumulators right after reading them; clearing them all after the
   * loop leaves the same state, since no later bin reads an earlier one.
   */
  method ResynthesiseBins(phase: array<real>, mag: array<real>, inc: array<real>, count: array<real>,
                          re: array<real>, im: array<real>, math: Math)
    requires mag.Length == phase.Length && inc.Length == phase.Length && count.Length == phase.Length
    requires phase.Length < re.Length && re.Length == im.Length
    requires phase != mag && phase != inc && phase != count && mag != inc && mag != count && inc != count
    requires re != im
    modifies phase, mag, inc, count, re, im
    ensures forall k :: 0 <= k < phase.Length ==>
      (phase[k], re[k], im[k]) == ResynthBin(old(phase[k]), old(mag[k]), old(inc[k]), old(count[k]), math)
    ensures mag[..] == Zeros(phase.Length) && inc[..] == Zeros(phase.Length) && count[..] == Zeros(phase.Length)
    ensures forall i :: phase.Length <= i < re.Length ==> re[i] == old(re[i]) && im[i] == old(im[i])
  {
    for k := 0 to phase.Length
      modifies phase, re, im
      invariant forall j :: 0 <= j < k ==>
        (phase[j], re[j], im[j]) == ResynthBin(old(phase[j]), mag[j], inc[j], count[j], math)
      invariant forall j :: k <= j < phase.Length ==> phase[j] == old(phase[j])
      invariant forall i :: phase.Length <= i < re.Length ==> re[i] == old(re[i]) && im[i] == old(im[i])
    {
      var r := ResynthBin(phase[k], mag[k], inc[k], count[k], math);
      phase[k], re[k], im[k] := r.0, r.1, r.2;
    }
    ZeroThree(mag, inc, count);
  }

  /**
   * The mirroring loop of _processFrame: bins 1..half−1 are copied,
   * conjugated, to N−k, and the DC and Nyquist imaginary parts are
   * zeroed. The result is the spectrum of a real signal.
   */
  method MirrorSpectrum(re: array<real>, im: array<real>, half: nat)
    requires half >= 1 && re.Length == 2 * half && im.Length == 2 * half && re != im
    modifies re, im
    ensures ConjugateSymmetric(re[..], im[..])
    ensures forall k :: 0 <= k <= half ==> re[k] == old(re[k])
    ensures forall k :: 0 < k < half ==> im[k] == old(im[k])
  {
    var n := 2 * half;
    for k := 1 to half
      invariant forall j :: 0 <= j <= half ==> re[j] == old(re[j]) && im[j] == old(im[j])
      invariant forall j :: 1 <= j < k ==> re[n - j] == re[j] && im[n - j] == -im[j]
    {
      re[n - k] := re[k];
      im[n - k] := -im[k];
    }
    im[0] := 0.0;
    im[half] := 0.0;
    forall k | 0 < k < n
      ensures re[..][n - k] == re[..][k] && im[..][n - k] == -im[..][k]
    {
      if half < k {
        assert 1 <= n - k < half && n - (n - k) == k;
      }
    }
  }

  /** The overlap-add loop of _processFrame. */
  method OverlapAdd(acc: array<real>, frame: array<real>, w: array<real>, scale: real)
    requires frame.Length == acc.Length && w.Length == acc.Length && acc != frame && acc != w
    modifies acc
    ensures acc[..] == AddScaled(old(acc[..]), frame[..], w[..], scale)
  {
    ghost var before := acc[..];
    for i := 0 to acc.Length
      invariant forall j :: 0 <= j < i ==> acc[j] == before[j] + frame[j] * w[j] * scale
      invariant forall j :: i <= j < acc.Length ==> acc[j] == before[j]
    {
      acc[i] := acc[i] + frame[i] * w[i] * scale;
    }
    forall j | 0 <= j < acc.Length
      ensures acc[..][j] == AddScaled(before, frame[..], w[..], scale)[j]
    {
    }
    assert acc[..] == AddScaled(before, frame[..], w[..], scale);
  }

  /**
   * The end of _processFrame on the accumulator: `copyWithin(0, hop)`
   * then `fill(0, N − hop)`, so the buffer moves hop places towards the
   * front and zeros come in behind.
   */
  method ShiftOut(acc: array<real>, hop: nat)
    requires hop <= acc.Length
    modifies acc
    ensures acc[..] == old(acc[..])[hop..] + Zeros(hop)
  {
    ghost var before := acc[..];
    CopyWithin(acc, hop);
    FillZero(acc, acc.Length - hop);
    forall j | 0 <= j < acc.Length
      ensures acc[..][j] == (before[hop..] + Zeros(hop))[j]
    {
      if j < acc.Length - hop {
        assert acc[j] == acc[..acc.Length - hop][j];
      }
    }
    assert acc[..] == before[hop..] + Zeros(hop);
  }

  /** The two rings of configure, each of the given capacity and empty. */
  method NewRings(capacity: nat) returns (input: Ring, output: Ring)
    requires capacity > 0
    ensures fresh(input) && fresh(output) && fresh(input.data) && fresh(output.data)
    ensures input != output && input.data != output.data
    ensures input.Valid() && output.Valid()
    ensures input.data.Length == capacity && output.data.Length == capacity
    ensures input.Contents() == [] && output.Contents() == []
  {
    input := new Ring(capacity);
    output := new Ring(capacity);
  }

  /** The five per-bin arrays, the FFT scratch arrays and the synthesis accumulator of configure. */
  method AllocateBuffers(count: nat, size: nat)
    returns (a: array<real>, b: array<real>, c: array<real>, d: array<real>, e: array<real>,
             re: array<real>, im: array<real>, acc: array<real>)
    ensures fresh(a) && fresh(b) && fresh(c) && fresh(d) && fresh(e) && fresh(re) && fresh(im) && fresh(acc)
    ensures a.Length == count && b.Length == count && c.Length == count && d.Length == count && e.Length == count
    ensures re.Length == size && im.Length == size && acc.Length == size
    ensures a != b && a != c && a != d && a != e && b != c && b != d && b != e && c != d && c != e && d != e
    ensures re != im && re != acc && im != acc
  {
    a := new real[count];
    b := new real[count];
    c := new real[count];
    d := new real[count];
    e := new real[count];
    re := new real[size];
    im := new real[size];
    acc := new real[size];
  }

  /** The window, its scale, the expected phases and the FFT of configure. */
  method BuildTables(size: nat, hop: nat, math: Math) returns (w: array<real>, scale: real, e: array<real>, engine: Fft)
    requires IsPowerOfTwo(size) && 0 < hop <= size
    ensures fresh(w) && fresh(e) && fresh(engine) && fresh(engine.rev)
    ensures w.Length == size && e.Length == size / 2 + 1
    ensures w[..] == HannWindow(size, math)
    ensures scale == ScaleFor(w[..], hop)
    ensures e[..] == ExpectedPhases(PhaseAdvance(hop, size), size / 2 + 1)
    ensures engine.Valid() && engine.size == size
  {
    w := BuildWindow(size, math);
    scale := ComputeWindowScale(w, hop);
    e := BuildExpectedPhase(size / 2 + 1, PhaseAdvance(hop, size));
    engine := new Fft.Build(Log2(size), math);
  }

  /** The Hann window loop of configure. */
  method BuildWindow(size: nat, math: Math) returns (w: array<real>)
    requires size > 0
    ensures fresh(w) && w.Length == size
    ensures w[..] == HannWindow(size, math)
  {
    w := new real[size];
    for i := 0 to size
      invariant forall k :: 0 <= k < i ==> w[k] == Hann(k, size, math)
    {
      w[i] := Hann(i, size, math);
    }
    assert w[..] == HannWindow(size, math);
  }

  /** The expected-phase loop of configure: bin k advances by k·base per hop. */
  method BuildExpectedPhase(count: nat, base: real) returns (e: array<real>)
    ensures fresh(e) && e.Length == count
    ensures e[..] == ExpectedPhases(base, count)
  {
    e := new real[count];
    for k := 0 to count
      invariant forall j :: 0 <= j < k ==> e[j] == base * j as real
    {
      e[k] := base * k as real;
    }
    forall j | 0 <= j < count
      ensures e[..][j] == ExpectedPhases(base, count)[j]
    {
    }
    assert e[..] == ExpectedPhases(base, count);
  }

  /** hopSize over the window's energy, or 1 for a zero window. */
  function ScaleFor(w: seq<real>, hop: nat): (scale: real)
    ensures hop > 0 ==> scale > 0.0
    ensures SumSquares(w) > 0.0 ==> scale * SumSquares(w) == hop as real
  {
    var e := SumSquares(w);
    if e == 0.0 then 1.0 else hop as real / e
  }

  /** _computeWindowScale: hopSize over the window's energy, or 1 for a zero window. */
  method ComputeWindowScale(window: array<real>, hop: nat) returns (scale: real)
    ensures scale == ScaleFor(window[..], hop)
  {
    var energy := 0.0;
    for i := 0 to window.Length
      invariant energy == SumSquares(window[..i])
    {
      assert window[..i + 1][..i] == window[..i];
      energy := energy + window[i] * window[i];
    }
    assert window[..window.Length] == window[..];
    if energy == 0.0 {
      return 1.0;
    }
    return hop as real / energy;
  }

  /**
   * _popOutput for each slot of `output` while the ring holds samples,
   * 0 once it is empty (`outCount > 0 ? _popOutput() : 0`).
   */
  method PopInto(ring: Ring, output: array<real>)
    requires ring.Valid() && output != ring.data
    modifies ring, output
    ensures ring.Valid()
    ensures output[..] == BlockOutput(old(ring.Contents()), output.Length)
    ensures output.Length <= old(ring.count) ==> ring.Contents() == old(ring.Contents())[output.Length..]
    ensures old(ring.count) <= output.Length ==> ring.Contents() == []
  {
    ghost var ready := ring.Contents();
    ghost var expected := BlockOutput(ready, output.Length);
    for i := 0 to output.Length
      invariant ring.Valid()
      invariant ring.count == if i <= |ready| then |ready| - i else 0
      invariant ring.Contents() == if i <= |ready| then ready[i..] else []
      invariant forall j :: 0 <= j < i ==> output[j] == expected[j]
    {
      if ring.count > 0 {
        ghost var rest := ring.Contents();
        assert rest[0] == ready[i];
        var value := ring.Pop();
        output[i] := value;
        assert ring.Contents() == rest[1..] == ready[i + 1..];
      } else {
        output[i] := 0.0;
      }
    }
    assert output[..] == BlockOutput(ready, output.Length);
  }

  /**
   * configure(fftSize, overlap): the request is sanitised and a fresh
   * configuration built for it, then reset.
   */
  method Configured(sampleRate: real, fftSize: Num, overlap: Num, math: Math) returns (v: Vocoder)
    requires sampleRate > 0.0
    ensures fresh(v.Repr) && v.Valid() && v.Idle()
    ensures v.sampleRate == sampleRate
    ensures SanitizedFftSize(fftSize, v.fftSize) && SanitizedOverlap(overlap, v.fftSize, v.overlap)
    ensures v.hopSize * v.overlap == v.fftSize && v.latencySamples == v.fftSize - v.hopSize
    ensures v.inRing.Contents() == [] && v.outRing.Contents() == []
    ensures v.analysisPhase[..] == Zeros(v.halfSize + 1) && v.synthPhase[..] == Zeros(v.halfSize + 1)
    ensures v.synthesisBuffer[..] == Zeros(v.fftSize)
  {
    var size := SanitizeFftSize(fftSize);
    FftSizeIsPowerOfTwo(size);
    var slices := SanitizeOverlap(overlap, size);
    v := new Vocoder(sampleRate, size, slices, math);
    v.Reset();
  }

  /**
   * PitchShiftChannel: the current configuration and the smoothed pitch
   * ratio. Between calls no accumulator holds anything and the ratio
   * is inside [0.25, 4].
   */
  class Channel {
    const sampleRate: real
    var vocoder: Vocoder
    var pitchRatioState: real
    ghost var Repr: set<object>

    ghost predicate Valid()
      reads this, Repr
    {
      && this in Repr
      && vocoder.Sized() && vocoder.Repr <= Repr && this !in vocoder.Repr
      && vocoder.Valid() && vocoder.Idle()
      && vocoder.sampleRate == sampleRate
      && MinRatio <= pitchRatioState <= MaxRatio
    }

    /** constructor(sampleRate, fftSize, overlap): ratio 1, then configure. */
    constructor (sampleRate: real, fftSize: Num, overlap: Num, math: Math)
      requires sampleRate > 0.0
      ensures Valid() && fresh(Repr)
      ensures this.sampleRate == sampleRate && pitchRatioState == 1.0
      ensures SanitizedFftSize(fftSize, vocoder.fftSize) && SanitizedOverlap(overlap, vocoder.fftSize, vocoder.overlap)
      ensures vocoder.inRing.Contents() == [] && vocoder.outRing.Contents() == []
      ensures vocoder.analysisPhase[..] == Zeros(vocoder.halfSize + 1) && vocoder.synthPhase[..] == Zeros(vocoder.halfSize + 1)
      ensures vocoder.synthesisBuffer[..] == Zeros(vocoder.fftSize)
    {
      this.sampleRate := sampleRate;
      var v := Configured(sampleRate, fftSize, overlap, math);
      vocoder := v;
      pitchRatioState := 1.0;
      Repr := {this} + v.Repr;
    }

    /** configure(fftSize, overlap) on a live channel: a new configuration, the ratio back to 1. */
    method Configure(fftSize: Num, overlap: Num, math: Math)
      requires Valid()
      modifies this
      ensures Valid() && fresh(Repr - {this})
      ensures pitchRatioState == 1.0
      ensures SanitizedFftSize(fftSize, vocoder.fftSize) && SanitizedOverlap(overlap, vocoder.fftSize, vocoder.overlap)
      ensures vocoder.inRing.Contents() == [] && vocoder.outRing.Contents() == []
      ensures vocoder.analysisPhase[..] == Zeros(vocoder.halfSize + 1) && vocoder.synthPhase[..] == Zeros(vocoder.halfSize + 1)
      ensures vocoder.synthesisBuffer[..] == Zeros(vocoder.fftSize)
    {
      var v := Configured(sampleRate, fftSize, overlap, math);
      vocoder := v;
      pitchRatioState := 1.0;
      Repr := {this} + v.Repr;
    }

    /** reset(): every buffer cleared and the ratio back to 1; the configuration stays. */
    method Reset()
      requires Valid()
      modifies this, vocoder.Repr
      ensures Valid() && vocoder == old(vocoder) && Repr == old(Repr)
      ensures pitchRatioState == 1.0
      ensures vocoder.inRing.Contents() == [] && vocoder.outRing.Contents() == []
      ensures vocoder.synthesisBuffer[..] == Zeros(vocoder.fftSize)
      ensures vocoder.analysisPhase[..] == Zeros(vocoder.halfSize + 1)
      ensures vocoder.synthPhase[..] == Zeros(vocoder.halfSize + 1)
    {
      vocoder.Reset();
      pitchRatioState := 1.0;
    }

    /**
     * processBlock(input, output, ratio): smooth the ratio once, then
     * run the block through the configuration at the smoothed ratio.
     * `emitted` is what the frames produced.
     */
    method ProcessBlock(input: Option<seq<real>>, output: array<real>, ratio: Num, math: Math)
      returns (ghost emitted: seq<real>)
      requires Valid() && output !in Repr
      requires input.Some? ==> |input.value| >= output.Length
      modifies this, vocoder.Repr, output
      ensures Valid() && vocoder == old(vocoder) && Repr == old(Repr)
      ensures pitchRatioState == SmoothedRatio(old(pitchRatioState), ratio)
      ensures vocoder.inRing.count < vocoder.fftSize
      ensures var pushed := Last(old(vocoder.inRing.Contents()) + BlockInput(input, output.Length),
                                 vocoder.inRing.data.Length);
        |emitted| <= |pushed| && vocoder.inRing.Contents() == pushed[|emitted|..]
      ensures output[..] == BlockOutput(Last(old(vocoder.outRing.Contents()) + emitted, vocoder.outRing.data.Length),
                                        output.Length)
      ensures vocoder.outRing.Contents()
           == Leftover(Last(old(vocoder.outRing.Contents()) + emitted, vocoder.outRing.data.Length), output.Length)
    {
      pitchRatioState := SmoothedRatio(pitchRatioState, ratio);
      emitted := vocoder.ProcessBlock(input, output, pitchRatioState, math);
    }
  }
}
