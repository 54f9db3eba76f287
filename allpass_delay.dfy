/**
 * AllpassDelayProcessor of worklets/allpass-delay-processor.js: one
 * circular delay line per output channel, read at a fractional delay by
 * linear interpolation and feeding the allpass recurrence
 * y = g·x + (1 − g²)·d. The option sanitisers, the growth of the
 * per-channel state, resizing with copy-what-fits, the `reset` and
 * `configure` messages and the per-sample loop of `process`.
 */
module AllpassDelay {
  import opened JsValues

  /** The largest gain magnitude the loop lets through. */
  const MaxGain: real := 0.999
  const DefaultGain: real := 0.5
  /** Every buffer holds this many samples beyond maxDelaySamples. */
  const Slack: nat := 4

  /**
   * maxDelaySamples = max(2, floor(proposed)). A NaN proposal (which
   * makes zero-length buffers) and +Infinity (on which the Float32Array
   * allocation throws) are outside the model.
   */
  function MaxDelay(proposed: Num): (m: nat)
    requires proposed.Fin? || proposed.NegInf?
    ensures m >= 2
    ensures proposed.Fin? && proposed.v >= 2.0 ==> m as real <= proposed.v < m as real + 1.0
    ensures proposed.NegInf? || proposed.v < 2.0 ==> m == 2
  {
    if proposed.Fin? && proposed.v.Floor > 2 then proposed.v.Floor else 2
  }

  /** defaultDelaySamples = min(max − 1, max(1, floor(proposed))), a proposal other than NaN. */
  function DefaultDelay(proposed: Num, max: nat): (d: nat)
    requires !proposed.NaN? && max >= 2
    ensures 1 <= d <= max - 1
    ensures proposed.Fin? && 1.0 <= proposed.v < max as real ==> d as real <= proposed.v < d as real + 1.0
    ensures proposed.PosInf? || (proposed.Fin? && proposed.v >= (max - 1) as real) ==> d == max - 1
    ensures proposed.NegInf? || (proposed.Fin? && proposed.v < 2.0) ==> d == 1
  {
    match proposed
    case PosInf => max - 1
    case NegInf => 1
    case Fin(x) => if x.Floor < 1 then 1 else if x.Floor > max - 1 then max - 1 else x.Floor
  }

  /** options.processorOptions || {} */
  function ProcessorOptions(options: Val): Val {
    if Truthy(Get(options, "processorOptions")) then Get(options, "processorOptions") else Obj(map[])
  }

  /** `typeof opts[key] === 'number' ? opts[key] : fallback` */
  function NumberOr(opts: Val, key: string, fallback: real): (n: Num)
    ensures IsNumber(Get(opts, key)) ==> Get(opts, key) == Number(n)
    ensures !IsNumber(Get(opts, key)) ==> n == Fin(fallback)
  {
    if Get(opts, key).Number? then Get(opts, key).n else Fin(fallback)
  }

  function ProposedMax(options: Val, sampleRate: real): Num {
    NumberOr(ProcessorOptions(options), "maxDelaySamples", sampleRate * 0.2)
  }

  function ProposedDefault(options: Val, sampleRate: real): Num {
    NumberOr(ProcessorOptions(options), "defaultDelaySamples", sampleRate * 0.05)
  }

  /** Math.max(lo, Math.min(hi, x)) on a number other than NaN. */
  function Clamp(lo: real, hi: real, x: Num): (r: real)
    requires lo <= hi && !x.NaN?
    ensures lo <= r <= hi
    ensures x.Fin? && lo <= x.v <= hi ==> r == x.v
    ensures x.PosInf? || (x.Fin? && x.v >= hi) ==> r == hi
    ensures x.NegInf? || (x.Fin? && x.v <= lo) ==> r == lo
  {
    if x.PosInf? then hi
    else if x.NegInf? then lo
    else if x.v > hi then hi
    else if x.v < lo then lo
    else x.v
  }

  /**
   * What one channel's loop reads besides its delay line: its input
   * channel, the two k-rate parameter arrays, defaultDelaySamples and
   * maxDelaySamples.
   */
  datatype Controls = Controls(input: seq<real>, gain: seq<Num>, delay: seq<Num>, fallback: nat, max: nat)

  /**
   * The parameter arrays hold one value or one per frame, as the host
   * delivers them, and no gain is NaN.
   */
  predicate Covers(c: Controls, frames: nat) {
    && c.max >= 2
    && (|c.gain| <= 1 || |c.gain| >= frames)
    && (|c.delay| <= 1 || |c.delay| >= frames)
    && forall i :: 0 <= i < |c.gain| ==> !c.gain[i].NaN?
  }

  /** The gain of frame i: gain[i] of a per-frame array, else gain[0] ?? 0.5, clamped to ±0.999. */
  function GainAt(c: Controls, i: nat): (g: real)
    requires Covers(c, i + 1)
    ensures -MaxGain <= g <= MaxGain
    ensures |c.gain| == 0 ==> g == DefaultGain
    ensures |c.gain| > 1 && c.gain[i].Fin? && -MaxGain <= c.gain[i].v <= MaxGain ==> g == c.gain[i].v
  {
    var v := if |c.gain| > 1 then c.gain[i] else if |c.gain| == 1 then c.gain[0] else Fin(DefaultGain);
    Clamp(-MaxGain, MaxGain, v)
  }

  /**
   * The delay of frame i: delay[i] of a per-frame array, else
   * delay[0] ?? defaultDelaySamples; a non-finite value is replaced by
   * defaultDelaySamples; then clamped to [1, max − 1].
   */
  function DelayAt(c: Controls, i: nat): (d: real)
    requires Covers(c, i + 1)
    ensures 1.0 <= d <= (c.max - 1) as real
    ensures |c.delay| > 1 && c.delay[i].Fin? && 1.0 <= c.delay[i].v <= (c.max - 1) as real ==> d == c.delay[i].v
    ensures |c.delay| > 1 && !c.delay[i].Fin? && 1 <= c.fallback <= c.max - 1 ==> d == c.fallback as real
  {
    var v := if |c.delay| > 1 then c.delay[i] else if |c.delay| == 1 then c.delay[0] else Fin(c.fallback as real);
    var finite := if v.Fin? then v else Fin(c.fallback as real);
    Clamp(1.0, (c.max - 1) as real, finite)
  }

  /** A parameter array of one value supplies that value to every frame. */
  lemma OneValueForAllFrames(c: Controls, i: nat)
    requires Covers(c, i + 1)
    ensures |c.gain| == 1 ==> GainAt(c, i) == GainAt(c, 0)
    ensures |c.delay| == 1 ==> DelayAt(c, i) == DelayAt(c, 0)
  {
  }

  /** `inChan.length > i ? inChan[i] : 0` */
  function InputAt(c: Controls, i: nat): real {
    if i < |c.input| then c.input[i] else 0.0
  }

  /**
   * readIndex = writeIndex − delay, brought into [0, len) by the two
   * wrapping loops; it is the read position `delay` samples behind the
   * write cursor around the ring.
   */
  function ReadIndex(w: nat, d: real, len: nat): (r: real)
    requires w < len && 0.0 < d < len as real
    ensures 0.0 <= r < len as real
    ensures r == w as real - d || r == w as real - d + len as real
  {
    if w as real - d < 0.0 then w as real - d + len as real else w as real - d
  }

  /** The ring position one after p: p + 1, or 0 past the end. */
  function Next(p: nat, len: nat): (q: nat)
    requires p < len
    ensures q < len
  {
    if p + 1 == len then 0 else p + 1
  }

  /** The source's (p + 1) % len is that position. */
  lemma NextIsMod(p: nat, len: nat)
    requires p < len
    ensures (p + 1) % len == Next(p, len)
  {
  }

  /** Linear interpolation a + (b − a)·f. */
  function Lerp(a: real, b: real, f: real): real {
    a + (b - a) * f
  }

  /** An interpolation at a fraction in [0, 1) lies between its two ends, and at 0 it is the first. */
  lemma LerpBetween(a: real, b: real, f: real)
    requires 0.0 <= f < 1.0
    ensures (a <= Lerp(a, b, f) <= b) || (b <= Lerp(a, b, f) <= a)
    ensures f == 0.0 ==> Lerp(a, b, f) == a
  {
    MulSigns(b - a, f);
    MulSigns(b - a, 1.0 - f);
    assert (b - a) * (1.0 - f) == (b - a) - (b - a) * f;
  }

  /**
   * The interpolated read at position r: buffer[base] interpolated
   * towards buffer[next] by frac, for base = floor(r), frac = r − base
   * and next the position after base around the ring.
   */
  function Tap(buf: seq<real>, r: real): real
    requires 0.0 <= r < |buf| as real
  {
    Lerp(buf[r.Floor], buf[Next(r.Floor, |buf|)], r - r.Floor as real)
  }

  /** The read lies between the two samples it reads, and at a whole position it is the sample there. */
  lemma TapBetween(buf: seq<real>, r: real)
    requires 0.0 <= r < |buf| as real
    ensures var a, b := buf[r.Floor], buf[Next(r.Floor, |buf|)];
            (a <= Tap(buf, r) <= b) || (b <= Tap(buf, r) <= a)
    ensures r == r.Floor as real ==> Tap(buf, r) == buf[r.Floor]
  {
    LerpBetween(buf[r.Floor], buf[Next(r.Floor, |buf|)], r - r.Floor as real);
  }

  /** A delay line's contents and write cursor, with the output produced so far. */
  datatype Tape = Tape(buf: seq<real>, w: nat, out: seq<real>)

  predicate Fits(t: Tape, c: Controls, frames: nat) {
    t.w < |t.buf| && |t.buf| == c.max + Slack && Covers(c, frames)
  }

  /** The ring position k frames after w. */
  function Pos(w: nat, k: nat, len: nat): (p: nat)
    requires w < len
    ensures p < len
  {
    if k == 0 then w else Next(Pos(w, k - 1, len), len)
  }

  /** The positions the cursor stands on during the first n frames from w. */
  function Passed(w: nat, n: nat, len: nat): (ps: set<nat>)
    requires w < len
    ensures forall p :: p in ps ==> p < len
  {
    if n == 0 then {} else Passed(w, n - 1, len) + {Pos(w, n - 1, len)}
  }

  /** The sample stored for input x, gain g and delayed read y: x − g·y. */
  function Stored(x: real, g: real, y: real): real {
    x - g * y
  }

  /** The sample output for gain g, delayed read y and stored sample s: y + g·s. */
  function Emitted(g: real, y: real, s: real): real {
    y + g * s
  }

  /** Together they give the allpass output g·x + (1 − g²)·y. */
  lemma EmittedIsAllpass(x: real, g: real, y: real)
    ensures Emitted(g, y, Stored(x, g, y)) == g * x + (1.0 - g * g) * y
  {
    assert y + g * (x - g * y) == g * x + (1.0 - g * g) * y;
  }

  /**
   * One frame: the interpolated read `d` behind the cursor, the stored
   * sample written at the cursor, the cursor advanced by one around the
   * ring and the emitted sample appended to the output. Only buffer[w]
   * changes, and the output grows by one sample.
   */
  function Step(t: Tape, x: real, g: real, d: real): (s: Tape)
    requires t.w < |t.buf| && 0.0 < d < |t.buf| as real
    ensures |s.buf| == |t.buf| && s.w == Next(t.w, |t.buf|)
    ensures forall j :: 0 <= j < |t.buf| && j != t.w ==> s.buf[j] == t.buf[j]
    ensures |s.out| == |t.out| + 1 && s.out[..|t.out|] == t.out
  {
    var delayed := Tap(t.buf, ReadIndex(t.w, d, |t.buf|));
    var sum := Stored(x, g, delayed);
    Tape(t.buf[t.w := sum], Next(t.w, |t.buf|), t.out + [Emitted(g, delayed, sum)])
  }

  /** The first n frames of one channel's loop: the cursor ends n positions on around the ring. */
  function Block(t: Tape, c: Controls, n: nat): (r: Tape)
    requires Fits(t, c, n)
    ensures |r.buf| == |t.buf| && r.w < |t.buf|
    ensures |r.out| == |t.out| + n
    decreases n, 0
  {
    if n == 0 then t else After(t, c, n - 1)
  }

  /** The line after frame k: one Step from Block(t, c, k). */
  function After(t: Tape, c: Controls, k: nat): (r: Tape)
    requires Fits(t, c, k + 1)
    ensures |r.buf| == |t.buf| && r.w < |t.buf|
    ensures |r.out| == |t.out| + k + 1
    decreases k, 1
  {
    Step(Block(t, c, k), InputAt(c, k), GainAt(c, k), DelayAt(c, k))
  }

  /** Block's recursive case. */
  lemma BlockUnfold(t: Tape, c: Controls, n: nat)
    requires Fits(t, c, n) && n > 0
    ensures Block(t, c, n) == Step(Block(t, c, n - 1), InputAt(c, n - 1), GainAt(c, n - 1), DelayAt(c, n - 1))
  {
  }

  /** Step in terms of the interpolated read y and the stored sample. */
  lemma StepShape(t: Tape, x: real, g: real, d: real, y: real, sum: real)
    requires t.w < |t.buf| && 0.0 < d < |t.buf| as real
    requires y == Tap(t.buf, ReadIndex(t.w, d, |t.buf|)) && sum == Stored(x, g, y)
    ensures Step(t, x, g, d) == Tape(t.buf[t.w := sum], Next(t.w, |t.buf|), t.out + [Emitted(g, y, sum)])
  {
  }

  /**
   * The allpass recurrence of one frame: the stored sample is x − g·d
   * and the output is g·x + (1 − g²)·d, for d the interpolated read.
   */
  lemma StepIsAllpass(t: Tape, x: real, g: real, d: real)
    requires t.w < |t.buf| && 0.0 < d < |t.buf| as real
    ensures var delayed := Tap(t.buf, ReadIndex(t.w, d, |t.buf|));
            var s := Step(t, x, g, d);
            && s.buf[t.w] == x - g * delayed
            && s.out[|t.out|] == g * x + (1.0 - g * g) * delayed
  {
    var delayed := Tap(t.buf, ReadIndex(t.w, d, |t.buf|));
    StepShape(t, x, g, d, delayed, Stored(x, g, delayed));
    EmittedIsAllpass(x, g, delayed);
  }

  /**
   * With a whole delay D the read is exactly the sample written D frames
   * ago: buffer[(w − D) mod len].
   */
  lemma WholeDelayReadsBack(buf: seq<real>, w: nat, D: nat)
    requires w < |buf| && 0 < D < |buf|
    ensures Tap(buf, ReadIndex(w, D as real, |buf|)) == buf[(w - D) % |buf|]
  {
    var k := if w < D then w - D + |buf| else w - D;
    assert ReadIndex(w, D as real, |buf|) == k as real;
    assert (k as real).Floor == k;
    WrapOnce(w - D, |buf|);
    TapBetween(buf, k as real);
  }

  /** An integer less than one turn away from [0, n) is brought into it by adding n at most once. */
  lemma WrapOnce(a: int, n: nat)
    requires -(n as int) <= a < n
    ensures a % n == if a < 0 then a + n else a
  {
    if a < 0 {
      assert a == (a + n) + (-1) * n;
    }
  }

  /** After n frames the cursor stands n positions on and the earlier output is kept as a prefix. */
  lemma {:induction false} BlockCursor(t: Tape, c: Controls, n: nat)
    requires Fits(t, c, n)
    ensures Block(t, c, n).w == Pos(t.w, n, |t.buf|)
    ensures Block(t, c, n).out[..|t.out|] == t.out
  {
    if n > 0 {
      BlockCursor(t, c, n - 1);
      var p := Block(t, c, n - 1);
      assert Block(t, c, n) == Step(p, InputAt(c, n - 1), GainAt(c, n - 1), DelayAt(c, n - 1));
      assert Block(t, c, n).out[..|t.out|] == p.out[..|p.out|][..|t.out|];
    }
  }

  /** After n frames the only samples that changed are at the positions the cursor passed over. */
  lemma {:induction false} BlockWritesPassedOver(t: Tape, c: Controls, n: nat)
    requires Fits(t, c, n)
    ensures forall j :: 0 <= j < |t.buf| && j !in Passed(t.w, n, |t.buf|) ==> Block(t, c, n).buf[j] == t.buf[j]
  {
    if n > 0 {
      BlockWritesPassedOver(t, c, n - 1);
      BlockCursor(t, c, n - 1);
      StepKeepsOutside(Block(t, c, n - 1), InputAt(c, n - 1), GainAt(c, n - 1), DelayAt(c, n - 1),
                       t.buf, Passed(t.w, n - 1, |t.buf|));
    }
  }

  /** A step changes only the sample under the cursor. */
  lemma StepKeepsOutside(t: Tape, x: real, g: real, d: real, a: seq<real>, S: set<nat>)
    requires t.w < |t.buf| && 0.0 < d < |t.buf| as real && |a| == |t.buf|
    requires forall j :: 0 <= j < |a| && j !in S ==> t.buf[j] == a[j]
    ensures forall j :: 0 <= j < |a| && j !in S + {t.w} ==> Step(t, x, g, d).buf[j] == a[j]
  {
  }

  /** One frame of silence into a cleared line: the line stays cleared and 0 is output. */
  lemma SilentStep(t: Tape, x: real, g: real, d: real)
    requires t.w < |t.buf| && 0.0 < d < |t.buf| as real
    requires t.buf == Zeros(|t.buf|) && x == 0.0
    ensures Step(t, x, g, d) == Tape(t.buf, Next(t.w, |t.buf|), t.out + [0.0])
  {
    var r := ReadIndex(t.w, d, |t.buf|);
    TapBetween(t.buf, r);
    var y := Tap(t.buf, r);
    assert y == 0.0;
    StepShape(t, x, g, d, y, Stored(x, g, y));
    assert Stored(x, g, y) == 0.0 && Emitted(g, y, 0.0) == 0.0;
    assert t.buf[t.w := 0.0] == t.buf;
  }

  lemma ZerosSnoc(s: seq<real>, n: nat)
    requires n > 0
    ensures (s + Zeros(n - 1)) + [0.0] == s + Zeros(n)
  {
    assert Zeros(n - 1) + [0.0] == Zeros(n);
  }

  /** One more silent frame on a cleared line keeps it cleared and emits 0. */
  lemma SilentFrame(t: Tape, c: Controls, n: nat)
    requires Fits(t, c, n) && n > 0
    requires Block(t, c, n - 1).buf == Zeros(|t.buf|) && InputAt(c, n - 1) == 0.0
    ensures Block(t, c, n).buf == Block(t, c, n - 1).buf
    ensures Block(t, c, n).out == Block(t, c, n - 1).out + [0.0]
  {
    var p := Block(t, c, n - 1);
    var x, g, d := InputAt(c, n - 1), GainAt(c, n - 1), DelayAt(c, n - 1);
    BlockUnfold(t, c, n);
    SilentStep(p, x, g, d);
  }

  /** Silence into a cleared line gives silence out and leaves the line cleared. */
  lemma {:induction false} SilenceStaysSilent(t: Tape, c: Controls, n: nat)
    requires Fits(t, c, n)
    requires t.buf == Zeros(|t.buf|) && forall i :: 0 <= i < |c.input| ==> c.input[i] == 0.0
    ensures Block(t, c, n).buf == Zeros(|t.buf|)
    ensures Block(t, c, n).out == t.out + Zeros(n)
  {
    if n > 0 {
      assert Fits(t, c, n - 1);
      SilenceStaysSilent(t, c, n - 1);
      SilentFrame(t, c, n);
      ZerosSnoc(t.out, n);
    }
  }

  /** The new buffer of resizeBuffers: the first min(old, n) samples kept, zeros after. */
  function Resized(s: seq<real>, n: nat): (r: seq<real>)
    ensures |r| == n
    ensures forall j :: 0 <= j < n ==> r[j] == if j < |s| then s[j] else 0.0
  {
    if n <= |s| then s[..n] else s + Zeros(n - |s|)
  }

  /** Growing a line and shrinking it back restores it. */
  lemma ResizedBack(s: seq<real>, n: nat)
    requires n >= |s|
    ensures Resized(Resized(s, n), |s|) == s
  {
  }

  /** Resizing to the current length keeps the line. */
  lemma ResizedSame(s: seq<real>)
    ensures Resized(s, |s|) == s
  {
  }

  /** Resizing twice keeps what the smaller of the two sizes kept. */
  lemma ResizedTwice(s: seq<real>, m: nat, n: nat)
    requires n <= m
    ensures Resized(Resized(s, m), n) == Resized(s, n)
  {
  }

  datatype Message = ResetLines | Configure(maxDelay: Num) | Ignored

  /**
   * handleMessage's dispatch: a non-object is ignored, type 'reset'
   * resets, type 'configure' with a numeric maxDelaySamples resizes, and
   * anything else is ignored.
   */
  function Decode(data: Val): (m: Message)
    ensures m.ResetLines? <==> Truthy(data) && IsObject(data) && IsString(Get(data, "type"), "reset")
    ensures m.Configure? <==> Truthy(data) && IsObject(data) && IsString(Get(data, "type"), "configure")
                              && IsNumber(Get(data, "maxDelaySamples"))
    ensures m.Configure? ==> Get(data, "maxDelaySamples") == Number(m.maxDelay)
  {
    if !Truthy(data) || !IsObject(data) then Ignored
    else if Get(data, "type") == Str("reset") then ResetLines
    else if Get(data, "type") == Str("configure") && Get(data, "maxDelaySamples").Number? then
      Configure(Get(data, "maxDelaySamples").n)
    else Ignored
  }

  /** `input[ch] || input[0] || []` */
  function InputFor(input: seq<seq<real>>, ch: nat): (s: seq<real>)
    ensures ch < |input| ==> s == input[ch]
    ensures 0 < |input| <= ch ==> s == input[0]
    ensures |input| == 0 ==> s == []
  {
    if ch < |input| then input[ch] else if |input| > 0 then input[0] else []
  }

  /** One entry of `state`: a delay line and its write cursor. */
  datatype Line = Line(buffer: array<real>, writeIndex: nat)

  /** a.fill(0) */
  method Fill(a: array<real>)
    modifies a
    ensures a[..] == Zeros(a.Length)
  {
    var j := 0;
    while j < a.Length
      invariant 0 <= j <= a.Length
      invariant forall k :: 0 <= k < j ==> a[k] == 0.0
    {
      a[j] := 0.0;
      j := j + 1;
    }
    assert a[..] == Zeros(a.Length);
  }

  /** new Float32Array(n) filled by buffer.set(prev.subarray(0, min(prev.length, n))) */
  method Reallocate(prev: array<real>, n: nat) returns (b: array<real>)
    ensures fresh(b) && b.Length == n && b[..] == Resized(prev[..], n)
  {
    b := new real[n](_ => 0.0);
    var count := if prev.Length < n then prev.Length else n;
    var j := 0;
    while j < count
      invariant 0 <= j <= count
      invariant forall k :: 0 <= k < j ==> b[k] == prev[k]
      invariant forall k :: j <= k < n ==> b[k] == 0.0
    {
      b[j] := prev[j];
      j := j + 1;
    }
    assert b[..] == Resized(prev[..], n);
  }

  /**
   * readIndex = writeIndex − delay, then
   * `while (readIndex < 0) readIndex += len` and
   * `while (readIndex >= len) readIndex -= len`.
   */
  method WrapRead(w: nat, d: real, len: nat) returns (r: real)
    requires w < len && 0.0 < d < len as real
    ensures r == ReadIndex(w, d, len)
  {
    r := w as real - d;
    while r < 0.0
      invariant r == w as real - d || r == w as real - d + len as real
      decreases if r < 0.0 then 1 else 0
    {
      r := r + len as real;
    }
    while r >= len as real
      invariant r == ReadIndex(w, d, len) || r == ReadIndex(w, d, len) + len as real
      decreases if r >= len as real then 1 else 0
    {
      r := r - len as real;
    }
  }

  /**
   * The per-sample loop of one channel over `out.Length` frames: the
   * line, its cursor and the output are what Block gives.
   */
  method RunLine(buffer: array<real>, w: nat, c: Controls, out: array<real>) returns (next: nat)
    requires buffer != out && Fits(Tape(buffer[..], w, []), c, out.Length)
    modifies buffer, out
    ensures var t := Block(Tape(old(buffer[..]), w, []), c, out.Length);
            buffer[..] == t.buf && next == t.w && out[..] == t.out
  {
    ghost var t0 := Tape(buffer[..], w, []);
    next := w;
    var i := 0;
    while i < out.Length
      invariant 0 <= i <= out.Length
      invariant Block(t0, c, i) == Tape(buffer[..], next, out[..i])
    {
      next := Advance(t0, buffer, next, c, i, out);
      i := i + 1;
    }
    assert out[..] == out[..out.Length];
  }

  /** Frame i of the loop, stated against Block: after i frames from t0 the line is Block's, and after this one it is Block's for i + 1. */
  method Advance(ghost t0: Tape, buffer: array<real>, writeIndex: nat, c: Controls, i: nat, out: array<real>)
    returns (next: nat)
    requires buffer != out && i < out.Length && Fits(t0, c, out.Length)
    requires Block(t0, c, i) == Tape(buffer[..], writeIndex, out[..i])
    modifies buffer, out
    ensures Block(t0, c, i + 1) == Tape(buffer[..], next, out[..i + 1])
  {
    BlockUnfold(t0, c, i + 1);
    next := RunFrame(Block(t0, c, i), buffer, writeIndex, InputAt(c, i), GainAt(c, i), DelayAt(c, i), i, out);
  }

  /**
   * Frame i of the loop: the wrapped read position, the interpolated
   * read, then the stored sample written at the cursor, the cursor
   * advanced and the emitted sample written to out[i]. The line, cursor
   * and the first i + 1 outputs are one Step on from `t`.
   */
  method RunFrame(ghost t: Tape, buffer: array<real>, writeIndex: nat, x: real, gain: real, delay: real, i: nat, out: array<real>)
    returns (next: nat)
    requires buffer != out && i < out.Length && writeIndex < buffer.Length && 0.0 < delay < buffer.Length as real
    requires t.buf == buffer[..] && t.w == writeIndex && t.out == out[..i]
    modifies buffer, out
    ensures buffer[..] == Step(t, x, gain, delay).buf && next == Step(t, x, gain, delay).w
    ensures out[..i + 1] == Step(t, x, gain, delay).out
  {
    var len := buffer.Length;
    var readIndex := WrapRead(writeIndex, delay, len);
    var base := readIndex.Floor;
    var frac := readIndex - base as real;
    var nextIndex := (base + 1) % len;
    NextIsMod(base, len);
    var delayed := Lerp(buffer[base], buffer[nextIndex], frac);
    var sumIn := Stored(x, gain, delayed);
    var y := Emitted(gain, delayed, sumIn);
    StepShape(t, x, gain, delay, delayed, sumIn);
    buffer[writeIndex] := sumIn;
    NextIsMod(writeIndex, len);
    next := (writeIndex + 1) % len;
    out[i] := y;
    assert buffer[..] == t.buf[t.w := sumIn];
    assert out[..i + 1] == t.out + [y];
  }

  class Processor {
    var maxDelaySamples: nat
    const defaultDelaySamples: nat
    var state: seq<Line>

    ghost predicate Valid()
      reads this
    {
      && maxDelaySamples >= 2 && defaultDelaySamples >= 1
      && (forall i :: 0 <= i < |state| ==>
            state[i].buffer.Length == maxDelaySamples + Slack && state[i].writeIndex < state[i].buffer.Length)
      && (forall i, j :: 0 <= i < j < |state| ==> state[i].buffer != state[j].buffer)
    }

    /** The delay lines. */
    ghost function Buffers(): set<array<real>>
      reads this
    {
      set i | 0 <= i < |state| :: state[i].buffer
    }

    /**
     * The line channel ch runs on: its buffer and cursor, or the zero
     * line ensureState would create for it.
     */
    ghost function TapeAt(ch: nat): Tape
      reads this, Buffers()
    {
      if ch < |state| then Tape(state[ch].buffer[..], state[ch].writeIndex, [])
      else Tape(Zeros(maxDelaySamples + Slack), 0, [])
    }

    /** The constructor's option sanitising; the state starts empty. */
    constructor (sampleRate: real, options: Val)
      requires ProposedMax(options, sampleRate).Fin? || ProposedMax(options, sampleRate).NegInf?
      requires !ProposedDefault(options, sampleRate).NaN?
      ensures Valid() && state == []
      ensures maxDelaySamples == MaxDelay(ProposedMax(options, sampleRate))
      ensures defaultDelaySamples == DefaultDelay(ProposedDefault(options, sampleRate), maxDelaySamples)
    {
      maxDelaySamples := MaxDelay(ProposedMax(options, sampleRate));
      defaultDelaySamples := DefaultDelay(ProposedDefault(options, sampleRate), MaxDelay(ProposedMax(options, sampleRate)));
      state := [];
    }

    /**
     * ensureState(count): append zero lines of length max + 4 with
     * cursor 0 until there are `count`; existing lines are untouched,
     * so every channel's line reads as it did.
     */
    method EnsureState(count: nat)
      requires Valid()
      modifies this
      ensures Valid() && maxDelaySamples == old(maxDelaySamples)
      ensures |state| == if count > old(|state|) then count else old(|state|)
      ensures state[..old(|state|)] == old(state)
      ensures forall i :: old(|state|) <= i < |state| ==> fresh(state[i].buffer)
      ensures forall ch :: TapeAt(ch) == old(TapeAt(ch))
    {
      while |state| < count
        invariant Valid() && maxDelaySamples == old(maxDelaySamples)
        invariant |state| == old(|state|) || old(|state|) < |state| <= count
        invariant state[..old(|state|)] == old(state)
        invariant forall i :: old(|state|) <= i < |state| ==> fresh(state[i].buffer)
        invariant forall ch :: TapeAt(ch) == old(TapeAt(ch))
        decreases count - |state|
      {
        AddLine();
      }
    }

    /** One pass of ensureState's loop: a zero line with cursor 0 appended. */
    method AddLine()
      requires Valid()
      modifies this
      ensures Valid() && maxDelaySamples == old(maxDelaySamples)
      ensures |state| == old(|state|) + 1 && state[..old(|state|)] == old(state)
      ensures fresh(state[old(|state|)].buffer)
      ensures state[old(|state|)].buffer[..] == Zeros(maxDelaySamples + Slack) && state[old(|state|)].writeIndex == 0
      ensures forall ch :: TapeAt(ch) == old(TapeAt(ch))
    {
      var buffer := new real[maxDelaySamples + Slack](_ => 0.0);
      assert buffer[..] == Zeros(maxDelaySamples + Slack);
      state := state + [Line(buffer, 0)];
    }

    /**
     * resizeBuffers(newMax): nothing when max(2, floor(newMax)) is the
     * current maximum; otherwise every line is reallocated at the new
     * length with what fits copied, and every cursor is taken modulo
     * the new length.
     */
    method ResizeBuffers(newMax: Num)
      requires Valid() && (newMax.Fin? || newMax.NegInf?)
      modifies this
      ensures Valid() && |state| == old(|state|)
      ensures MaxDelay(newMax) == old(maxDelaySamples) ==> state == old(state) && maxDelaySamples == old(maxDelaySamples)
      ensures MaxDelay(newMax) != old(maxDelaySamples) ==> forall i :: 0 <= i < |state| ==> fresh(state[i].buffer)
      ensures maxDelaySamples == MaxDelay(newMax)
      ensures forall i :: 0 <= i < |state| ==>
        && state[i].buffer[..] == Resized(old(state[i].buffer[..]), maxDelaySamples + Slack)
        && state[i].writeIndex == old(state[i].writeIndex) % (maxDelaySamples + Slack)
    {
      var target := MaxDelay(newMax);
      if target == maxDelaySamples {
        forall i | 0 <= i < |state|
          ensures state[i].buffer[..] == Resized(state[i].buffer[..], maxDelaySamples + Slack)
          ensures state[i].writeIndex == state[i].writeIndex % (maxDelaySamples + Slack)
        {
          ResizedSame(state[i].buffer[..]);
          WrapOnce(state[i].writeIndex, maxDelaySamples + Slack);
        }
        return;
      }
      maxDelaySamples := target;
      ResizeLines();
    }

    /** resizeBuffers' loop: every line reallocated at max + 4. */
    method ResizeLines()
      requires maxDelaySamples >= 2
      requires forall k, j :: 0 <= k < j < |state| ==> state[k].buffer != state[j].buffer
      modifies this
      ensures maxDelaySamples == old(maxDelaySamples) && |state| == old(|state|)
      ensures forall k, j :: 0 <= k < j < |state| ==> state[k].buffer != state[j].buffer
      ensures forall k :: 0 <= k < |state| ==>
        && fresh(state[k].buffer)
        && state[k].buffer[..] == Resized(old(state[k].buffer[..]), maxDelaySamples + Slack)
        && state[k].writeIndex == old(state[k].writeIndex) % (maxDelaySamples + Slack)
    {
      var i := 0;
      while i < |state|
        invariant 0 <= i <= |state| == old(|state|) && maxDelaySamples == old(maxDelaySamples)
        invariant forall k :: i <= k < |state| ==> state[k] == old(state[k])
        invariant forall k, j :: 0 <= k < j < |state| ==> state[k].buffer != state[j].buffer
        invariant forall k :: 0 <= k < i ==>
          && fresh(state[k].buffer)
          && state[k].buffer[..] == Resized(old(state[k].buffer[..]), maxDelaySamples + Slack)
          && state[k].writeIndex == old(state[k].writeIndex) % (maxDelaySamples + Slack)
      {
        ResizeLine(i);
        i := i + 1;
      }
    }

    /** One pass of resizeBuffers' loop: line i reallocated at max + 4 with what fits, its cursor wrapped. */
    method ResizeLine(i: nat)
      requires i < |state| && maxDelaySamples >= 2
      requires forall k, j :: 0 <= k < j < |state| ==> state[k].buffer != state[j].buffer
      modifies this
      ensures maxDelaySamples == old(maxDelaySamples) && |state| == old(|state|)
      ensures forall k :: 0 <= k < |state| && k != i ==> state[k] == old(state[k])
      ensures forall k, j :: 0 <= k < j < |state| ==> state[k].buffer != state[j].buffer
      ensures fresh(state[i].buffer) && state[i].buffer.Length == maxDelaySamples + Slack
      ensures state[i].buffer[..] == Resized(old(state[i].buffer[..]), maxDelaySamples + Slack)
      ensures state[i].writeIndex == old(state[i].writeIndex) % (maxDelaySamples + Slack)
    {
      var prev := state[i];
      var buffer := Reallocate(prev.buffer, maxDelaySamples + Slack);
      state := state[i := Line(buffer, prev.writeIndex % buffer.Length)];
    }

    /** The reset message: every line zeroed with its cursor at 0. */
    method ResetLines()
      requires Valid()
      modifies this, Buffers()
      ensures Valid() && maxDelaySamples == old(maxDelaySamples) && |state| == old(|state|)
      ensures forall i :: 0 <= i < |state| ==>
        state[i].buffer == old(state[i].buffer) && state[i].buffer[..] == Zeros(maxDelaySamples + Slack)
        && state[i].writeIndex == 0
    {
      var i := 0;
      while i < |state|
        invariant 0 <= i <= |state| == old(|state|) && Valid() && maxDelaySamples == old(maxDelaySamples)
        invariant forall k :: 0 <= k < |state| ==> state[k].buffer == old(state[k].buffer)
        invariant forall k :: i <= k < |state| ==> state[k] == old(state[k])
        invariant forall k :: 0 <= k < i ==>
          state[k].buffer[..] == Zeros(maxDelaySamples + Slack) && state[k].writeIndex == 0
      {
        ResetLine(i);
        i := i + 1;
      }
    }

    /** One pass of the reset loop: line i zeroed in place, its cursor at 0. */
    method ResetLine(i: nat)
      requires Valid() && i < |state|
      modifies this, state[i].buffer
      ensures Valid() && maxDelaySamples == old(maxDelaySamples) && |state| == old(|state|)
      ensures forall k :: 0 <= k < |state| && k != i ==> state[k] == old(state[k])
      ensures state[i].buffer == old(state[i].buffer) && state[i].writeIndex == 0
      ensures state[i].buffer[..] == Zeros(maxDelaySamples + Slack)
    {
      var line := state[i];
      Fill(line.buffer);
      state := state[i := Line(line.buffer, 0)];
    }

    /**
     * handleMessage(event) with event.data = `data`. A configure whose
     * maxDelaySamples is NaN or +Infinity is outside the model.
     */
    method HandleMessage(data: Val)
      requires Valid()
      requires Decode(data).Configure? ==> Decode(data).maxDelay.Fin? || Decode(data).maxDelay.NegInf?
      modifies this, Buffers()
      ensures Valid() && |state| == old(|state|)
      ensures Decode(data).Ignored? ==> state == old(state) && maxDelaySamples == old(maxDelaySamples)
      ensures Decode(data).Ignored? ==> forall ch :: TapeAt(ch) == old(TapeAt(ch))
      ensures Decode(data).ResetLines? ==> maxDelaySamples == old(maxDelaySamples)
      ensures Decode(data).ResetLines? ==> forall i :: 0 <= i < |state| ==>
        state[i].buffer == old(state[i].buffer) && state[i].buffer[..] == Zeros(maxDelaySamples + Slack) && state[i].writeIndex == 0
      ensures Decode(data).Configure? ==>
        maxDelaySamples == MaxDelay(Decode(data).maxDelay)
        && forall i :: 0 <= i < |state| ==>
             state[i].buffer[..] == Resized(old(state[i].buffer[..]), maxDelaySamples + Slack)
             && state[i].writeIndex == old(state[i].writeIndex) % (maxDelaySamples + Slack)
    {
      match Decode(data)
      case Ignored =>
      case ResetLines => ResetLines();
      case Configure(m) => ResizeBuffers(m);
    }

    /**
     * process(inputs, outputs, parameters) for inputs[0] = `input` and
     * outputs[0] = `output`: with no output nothing happens; otherwise
     * there is a line per output channel, and channel ch runs its line
     * over the block, its output, line and cursor being what Block
     * gives from the line it had. Lines beyond the outputs are untouched.
     */
    method Process(input: seq<seq<real>>, output: Option<seq<array<real>>>, delay: seq<Num>, gain: seq<Num>)
      requires Valid()
      requires output.Some? ==> 0 < |output.value| && Apart(output.value, Buffers())
      requires output.Some? ==> forall ch :: 0 <= ch < |output.value| ==> output.value[ch].Length == output.value[0].Length
      requires output.Some? ==> Covers(Controls([], gain, delay, defaultDelaySamples, maxDelaySamples), output.value[0].Length)
      modifies this, Buffers(), if output.Some? then set o | o in output.value else {}
      ensures Valid() && maxDelaySamples == old(maxDelaySamples)
      ensures output.None? ==> state == old(state)
      ensures output.None? ==> forall ch :: TapeAt(ch) == old(TapeAt(ch))
      ensures output.Some? ==> |state| == (if |output.value| > old(|state|) then |output.value| else old(|state|))
      ensures output.Some? ==> forall ch :: 0 <= ch < |output.value| ==>
        Ran(old(TapeAt(ch)), ControlsFor(input, ch, delay, gain, defaultDelaySamples, maxDelaySamples),
            output.value[0].Length, output.value[ch][..], TapeAt(ch))
      ensures output.Some? ==> forall ch :: |output.value| <= ch < |state| ==> TapeAt(ch) == old(TapeAt(ch))
    {
      if output.None? {
        return;
      }
      var outputs := output.value;
      EnsureState(|outputs|);
      RunChannels(input, outputs, delay, gain);
    }

    /** The channel loop of process, over lines that all exist. */
    method RunChannels(input: seq<seq<real>>, outputs: seq<array<real>>, delay: seq<Num>, gain: seq<Num>)
      requires Valid() && 0 < |outputs| <= |state| && Apart(outputs, Buffers())
      requires forall ch :: 0 <= ch < |outputs| ==> outputs[ch].Length == outputs[0].Length
      requires Covers(Controls([], gain, delay, defaultDelaySamples, maxDelaySamples), outputs[0].Length)
      modifies this, Buffers(), set o | o in outputs
      ensures Valid() && maxDelaySamples == old(maxDelaySamples) && |state| == old(|state|)
      ensures forall ch :: 0 <= ch < |state| ==> state[ch].buffer == old(state[ch].buffer)
      ensures forall ch :: 0 <= ch < |outputs| ==>
        Ran(old(TapeAt(ch)), ControlsFor(input, ch, delay, gain, defaultDelaySamples, maxDelaySamples),
            outputs[0].Length, outputs[ch][..], TapeAt(ch))
      ensures forall ch :: |outputs| <= ch < |state| ==> TapeAt(ch) == old(TapeAt(ch))
    {
      var ch := 0;
      while ch < |outputs|
        invariant 0 <= ch <= |outputs| && Valid() && maxDelaySamples == old(maxDelaySamples)
        invariant |state| == old(|state|)
        invariant forall k :: 0 <= k < |state| ==> state[k].buffer == old(state[k].buffer)
        invariant forall k :: 0 <= k < ch ==>
          Ran(old(TapeAt(k)), ControlsFor(input, k, delay, gain, defaultDelaySamples, maxDelaySamples),
              outputs[0].Length, outputs[k][..], TapeAt(k))
        invariant forall k :: ch <= k < |state| ==> TapeAt(k) == old(TapeAt(k))
      {
        RunChannel(input, outputs, ch, delay, gain);
        ch := ch + 1;
      }
    }

    /** One pass of the channel loop: line ch runs into outputs[ch]; every other line keeps its contents. */
    method RunChannel(input: seq<seq<real>>, outputs: seq<array<real>>, ch: nat, delay: seq<Num>, gain: seq<Num>)
      requires Valid() && ch < |outputs| <= |state| && Apart(outputs, Buffers())
      requires outputs[ch].Length == outputs[0].Length
      requires Covers(Controls([], gain, delay, defaultDelaySamples, maxDelaySamples), outputs[0].Length)
      modifies this, state[ch].buffer, outputs[ch]
      ensures Valid() && maxDelaySamples == old(maxDelaySamples) && |state| == old(|state|)
      ensures forall k :: 0 <= k < |state| ==> state[k].buffer == old(state[k].buffer)
      ensures Ran(old(TapeAt(ch)), ControlsFor(input, ch, delay, gain, defaultDelaySamples, maxDelaySamples),
                  outputs[0].Length, outputs[ch][..], TapeAt(ch))
      ensures forall k :: 0 <= k < |state| && k != ch ==> TapeAt(k) == old(TapeAt(k))
      ensures forall k :: 0 <= k < |outputs| && k != ch ==> outputs[k][..] == old(outputs[k][..])
    {
      var line := state[ch];
      var c := ControlsFor(input, ch, delay, gain, defaultDelaySamples, maxDelaySamples);
      var w := RunLine(line.buffer, line.writeIndex, c, outputs[ch]);
      state := state[ch := Line(line.buffer, w)];
    }
  }

  /** The controls channel ch runs with. */
  function ControlsFor(input: seq<seq<real>>, ch: nat, delay: seq<Num>, gain: seq<Num>, fallback: nat, max: nat): Controls {
    Controls(InputFor(input, ch), gain, delay, fallback, max)
  }

  /**
   * Running one channel over n frames from line `before` produced the
   * samples `out` and left the line `after`, as Block says.
   */
  ghost predicate Ran(before: Tape, c: Controls, n: nat, out: seq<real>, after: Tape) {
    && Fits(before, c, n)
    && var t := Block(before, c, n);
       out == t.out && after == Tape(t.buf, t.w, [])
  }

  /** Output arrays that are pairwise distinct and none of them a delay line. */
  ghost predicate Apart(outputs: seq<array<real>>, lines: set<array<real>>)
  {
    && (forall i, j :: 0 <= i < j < |outputs| ==> outputs[i] != outputs[j])
    && (forall i :: 0 <= i < |outputs| ==> outputs[i] !in lines)
  }
}
