/**
 * SampleHoldProcessor of worklets/sample-hold-processor.js: a phase
 * accumulator that captures its input whenever the phase wraps, holds
 * it on the output and reports captured values through the port, at
 * most once per notify interval. The `reset` message, the frequency
 * sanitiser and the per-sample loop of `process`.
 */
module SampleHold {
  import opened JsValues

  const DefaultFrequency: real := 1000.0
  const MinHz: real := 0.1
  const MaxHzCap: real := 20000.0

  /** min(20000, sampleRate · 0.5) */
  function MaxHz(sampleRate: real): (m: real)
    ensures m <= MaxHzCap && (m == MaxHzCap || m == sampleRate * 0.5)
    ensures m <= sampleRate * 0.5
  {
    if sampleRate * 0.5 < MaxHzCap then sampleRate * 0.5 else MaxHzCap
  }

  /**
   * _sanitizeFrequency: a non-finite value gives 1000, a value ≤ 0 gives
   * 0, and a positive value is raised to 0.1 and then capped at MaxHz.
   */
  function SanitizeFrequency(value: Num, sampleRate: real): (f: real)
    ensures !value.Fin? ==> f == DefaultFrequency
    ensures value.Fin? && value.v <= 0.0 ==> f == 0.0
    ensures value.Fin? && 0.0 < value.v < MinHz ==> f == MinHz
    ensures value.Fin? && MinHz <= value.v <= MaxHz(sampleRate) ==> f == value.v
    ensures value.Fin? && MinHz <= value.v && value.v > MaxHz(sampleRate) ==> f == MaxHz(sampleRate)
  {
    match value
    case Fin(x) =>
      if x <= 0.0 then 0.0
      else if x < MinHz then MinHz
      else if x > MaxHz(sampleRate) then MaxHz(sampleRate)
      else x
    case _ => DefaultFrequency
  }

  /**
   * With a sample rate of at least 0.2 Hz the sanitised frequency is 0,
   * 1000 for a non-finite value, or in [0.1, MaxHz]; it is never negative.
   */
  lemma SanitizedFrequencyRange(value: Num, sampleRate: real)
    requires sampleRate >= 2.0 * MinHz
    ensures var f := SanitizeFrequency(value, sampleRate);
      f == 0.0 || f == DefaultFrequency || MinHz <= f <= MaxHz(sampleRate)
    ensures SanitizeFrequency(value, sampleRate) >= 0.0
  {
  }

  /** _notifyInterval = max(1, floor(sampleRate / 30)) */
  function NotifyInterval(sampleRate: real): (n: nat)
    ensures n >= 1
    ensures sampleRate >= 30.0 ==> n as real * 30.0 <= sampleRate < (n + 1) as real * 30.0
    ensures sampleRate < 60.0 ==> n == 1
  {
    var k := (sampleRate / 30.0).Floor;
    if k < 1 then 1 else k
  }

  /** The state `process` carries from sample to sample and across blocks. */
  datatype Hold = Hold(held: real, phase: real, notify: int)

  /** What one sample produces: the new state and the messages posted for it (none or one). */
  datatype Frame = Frame(next: Hold, posts: seq<real>)

  /**
   * Phase in [0, 1] and a countdown between 0 and the interval: what the
   * constructor and `reset` establish and every sample keeps.
   */
  predicate Sound(h: Hold, interval: nat) {
    0.0 <= h.phase <= 1.0 && 0 <= h.notify <= interval
  }

  /**
   * One pass of the sample loop with phase increment `inc` and input
   * sample `source`: on a wrap a finite source is captured and posted when
   * the countdown has run out; the wrapped phase keeps its fraction; a
   * positive countdown ticks down by one.
   */
  function Step(h: Hold, inc: real, source: Num, interval: nat): (f: Frame)
    // the phase stays in [0, 1) and the countdown in [0, interval)
    ensures Sound(h, interval) && inc >= 0.0 && interval >= 1 ==>
      Sound(f.next, interval) && f.next.phase < 1.0 && f.next.notify < interval
    // `held` changes only on a wrap, and then only to a finite input sample
    ensures f.next.held != h.held ==> h.phase + inc >= 1.0 && source.Fin? && f.next.held == source.v
    // a phase of 1, as after the constructor and `reset`, captures a finite first sample
    ensures h.phase == 1.0 && inc >= 0.0 && source.Fin? ==> f.next.held == source.v
    // a post happens exactly when a wrap meets a finite sample and a spent countdown;
    // it reports the new held value and restarts the countdown
    ensures |f.posts| <= 1
    ensures |f.posts| == 1 <==> h.phase + inc >= 1.0 && source.Fin? && h.notify <= 0
    ensures |f.posts| == 1 && interval >= 1 ==> f.posts[0] == f.next.held && f.next.notify == interval - 1
    ensures |f.posts| == 0 ==> f.next.notify == if h.notify > 0 then h.notify - 1 else h.notify
  {
    var phase := h.phase + inc;
    if phase >= 1.0 then
      var captured :=
        if source.Fin? then
          if source.v != h.held then
            if h.notify <= 0 then Frame(Hold(source.v, phase, interval), [source.v])
            else Frame(Hold(source.v, phase, h.notify), [])
          else if h.notify <= 0 then Frame(Hold(h.held, phase, interval), [h.held])
          else Frame(Hold(h.held, phase, h.notify), [])
        else Frame(Hold(h.held, phase, h.notify), []);
      Tick(Frame(captured.next.(phase := phase - phase.Floor as real), captured.posts))
    else
      Tick(Frame(Hold(h.held, phase, h.notify), []))
  }

  /** `if (notify > 0) notify -= 1` */
  function Tick(f: Frame): Frame {
    if f.next.notify > 0 then f.(next := f.next.(notify := f.next.notify - 1)) else f
  }

  /** What one channel's loop reads: the input channel (if any), the frequency array and the sample rate. */
  datatype Controls = Controls(input: Option<seq<Num>>, freq: seq<Num>, sampleRate: real, interval: nat)

  /**
   * `freqIsConstant ? freqValues[0] : freqValues[i]`; an index past the
   * array reads undefined, which the sanitiser treats like NaN.
   */
  function FreqAt(freq: seq<Num>, i: nat): Num {
    if |freq| == 1 then freq[0] else if i < |freq| then freq[i] else NaN
  }

  /** `inChannel ? inChannel[i] : 0`; past the channel's end undefined, which is not finite. */
  function SourceAt(input: Option<seq<Num>>, i: nat): Num {
    match input
    case None => Fin(0.0)
    case Some(s) => if i < |s| then s[i] else NaN
  }

  /** The phase increment of sample i: the sanitised frequency over the sample rate. */
  function Increment(c: Controls, i: nat): (inc: real)
    requires c.sampleRate > 0.0
    ensures inc >= 0.0
    ensures SanitizeFrequency(FreqAt(c.freq, i), c.sampleRate) == 0.0 ==> inc == 0.0
  {
    SanitizeFrequency(FreqAt(c.freq, i), c.sampleRate) / c.sampleRate
  }

  /** The state, the messages posted and the samples written after the first n samples of a block. */
  datatype Trace = Trace(state: Hold, posts: seq<real>, outs: seq<real>)

  function Run(h: Hold, c: Controls, n: nat): (t: Trace)
    requires c.sampleRate > 0.0
    ensures |t.outs| == n
    // every output sample is the held value as updated for that sample
    ensures n > 0 ==> t.outs[n - 1] == t.state.held
  {
    if n == 0 then Trace(h, [], [])
    else
      var t := Run(h, c, n - 1);
      var f := Step(t.state, Increment(c, n - 1), SourceAt(c.input, n - 1), c.interval);
      Trace(f.next, t.posts + f.posts, t.outs + [f.next.held])
  }

  /** Over a block the state stays sound. */
  lemma {:induction false} RunSound(h: Hold, c: Controls, n: nat)
    requires c.sampleRate > 0.0 && c.interval >= 1 && Sound(h, c.interval)
    ensures Sound(Run(h, c, n).state, c.interval)
  {
    if n > 0 {
      RunSound(h, c, n - 1);
    }
  }

  /**
   * At frequency 0 (every frequency value 0 or below) a phase below 1
   * never wraps: the held value and the phase stay as they are and
   * every output sample is the held value.
   */
  lemma {:induction false} ZeroFrequencyHolds(h: Hold, c: Controls, n: nat)
    requires c.sampleRate > 0.0 && h.phase < 1.0
    requires forall i :: 0 <= i < |c.freq| ==> c.freq[i].Fin? && c.freq[i].v <= 0.0
    requires |c.freq| == 1 || |c.freq| >= n
    ensures Run(h, c, n).state.held == h.held && Run(h, c, n).state.phase == h.phase
    ensures Run(h, c, n).posts == []
    ensures forall i :: 0 <= i < n ==> Run(h, c, n).outs[i] == h.held
  {
    if n > 0 {
      ZeroFrequencyHolds(h, c, n - 1);
      assert FreqAt(c.freq, n - 1).Fin? && FreqAt(c.freq, n - 1).v <= 0.0;
      assert Increment(c, n - 1) == 0.0;
    }
  }

  /**
   * A countdown of at least m keeps the next m samples silent: nothing is
   * posted and the countdown drops by exactly m.
   */
  lemma {:induction false} CountdownQuiet(h: Hold, c: Controls, m: nat)
    requires c.sampleRate > 0.0 && c.interval >= 1 && h.notify >= m
    ensures Run(h, c, m).posts == [] && Run(h, c, m).state.notify == h.notify - m
  {
    if m > 0 {
      CountdownQuiet(h, c, m - 1);
    }
  }

  /**
   * Posts are at least `interval` samples apart: any n ≤ interval
   * consecutive samples post at most once, and after a post in them the
   * countdown still has interval − n to go.
   */
  lemma {:induction false} PostsSpaced(h: Hold, c: Controls, n: nat)
    requires c.sampleRate > 0.0 && c.interval >= 1 && h.notify >= 0 && n <= c.interval
    ensures |Run(h, c, n).posts| <= 1
    ensures |Run(h, c, n).posts| == 1 ==> Run(h, c, n).state.notify >= c.interval - n
  {
    if n > 0 {
      PostsSpaced(h, c, n - 1);
    }
  }

  /**
   * The sample loop of `process` over out.Length samples from state h:
   * the state, the posts and the output are what Run gives.
   */
  method RunBlock(h: Hold, c: Controls, out: array<real>) returns (h': Hold, posts: seq<real>)
    requires c.sampleRate > 0.0
    modifies out
    ensures Run(h, c, out.Length) == Trace(h', posts, out[..])
  {
    var held, phase, notify := h.held, h.phase, h.notify;
    posts := [];
    var i := 0;
    while i < out.Length
      invariant 0 <= i <= out.Length
      invariant Run(h, c, i) == Trace(Hold(held, phase, notify), posts, out[..i])
    {
      var clamped := SanitizeFrequency(FreqAt(c.freq, i), c.sampleRate);
      var increment := clamped / c.sampleRate;
      var post;
      held, phase, notify, post := Sample(held, phase, notify, increment, SourceAt(c.input, i), c.interval);
      posts := posts + post;
      out[i] := held;
      assert out[..i + 1] == out[..i] + [held];
      i := i + 1;
    }
    assert out[..] == out[..out.Length];
    h' := Hold(held, phase, notify);
  }

  /** One pass of the loop body, as Step says. */
  method Sample(held: real, phase: real, notify: int, increment: real, source: Num, interval: nat)
    returns (held': real, phase': real, notify': int, post: seq<real>)
    ensures Step(Hold(held, phase, notify), increment, source, interval) == Frame(Hold(held', phase', notify'), post)
  {
    held', phase', notify', post := held, phase + increment, notify, [];
    if phase' >= 1.0 {
      if source.Fin? {
        if source.v != held' {
          held' := source.v;
          if notify' <= 0 {
            post := [held'];
            notify' := interval;
          }
        } else if notify' <= 0 {
          post := [held'];
          notify' := interval;
        }
      }
      phase' := phase' - phase'.Floor as real;
    }
    if notify' > 0 {
      notify' := notify' - 1;
    }
  }

  class Processor {
    var heldValue: real
    var phase: real
    var notifyCountdown: int
    const notifyInterval: nat
    const sampleRate: real
    /** The values posted through the port, oldest first. */
    var posted: seq<real>

    predicate Valid()
      reads this
    {
      sampleRate > 0.0 && notifyInterval >= 1 && Sound(State(), notifyInterval)
    }

    function State(): Hold
      reads this
    {
      Hold(heldValue, phase, notifyCountdown)
    }

    /** The constructor: nothing held, phase 1 so the first sample captures, the initial 0 posted. */
    constructor(sampleRate: real)
      requires sampleRate > 0.0
      ensures Valid() && this.sampleRate == sampleRate
      ensures State() == Hold(0.0, 1.0, 0) && notifyInterval == NotifyInterval(sampleRate)
      ensures posted == [0.0]
    {
      heldValue := 0.0;
      phase := 1.0;
      notifyCountdown := 0;
      notifyInterval := NotifyInterval(sampleRate);
      this.sampleRate := sampleRate;
      posted := [0.0];
    }

    /** The port handler: a `reset` message clears the state and posts 0; anything else is ignored. */
    method HandleMessage(data: Val)
      requires Valid()
      modifies this
      ensures Valid()
      ensures Truthy(data) && IsString(Get(data, "type"), "reset") ==>
        State() == Hold(0.0, 1.0, 0) && posted == old(posted) + [0.0]
      ensures !(Truthy(data) && IsString(Get(data, "type"), "reset")) ==>
        State() == old(State()) && posted == old(posted)
    {
      if Truthy(data) && Get(data, "type") == Str("reset") {
        heldValue := 0.0;
        phase := 1.0;
        notifyCountdown := 0;
        posted := posted + [0.0];
      }
    }

    /**
     * process: with no output channel nothing happens; otherwise every
     * sample of output channel 0 is written, and the state and the posts
     * are what Run gives for this block.
     */
    method Process(input: Option<seq<Num>>, outputGroup: seq<array<real>>, freq: seq<Num>)
      requires Valid()
      modifies this, if |outputGroup| > 0 then {outputGroup[0]} else {}
      ensures Valid()
      ensures |outputGroup| == 0 ==> State() == old(State()) && posted == old(posted)
      ensures |outputGroup| > 0 ==>
        var t := Run(old(State()), Controls(input, freq, sampleRate, notifyInterval), outputGroup[0].Length);
        State() == t.state && posted == old(posted) + t.posts && outputGroup[0][..] == t.outs
    {
      if |outputGroup| == 0 {
        return;
      }
      var out := outputGroup[0];
      var c := Controls(input, freq, sampleRate, notifyInterval);
      var h, posts := RunBlock(State(), c, out);
      RunSound(old(State()), c, out.Length);
      heldValue, phase, notifyCountdown := h.held, h.phase, h.notify;
      posted := posted + posts;
    }
  }
}
