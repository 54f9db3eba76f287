/**
 * HQPitchShiftProcessor of worklets/hq-pitch-shifter.js: one
 * PitchShiftChannel per output channel, all at one configuration, fed
 * per block with the clamped k-rate ratio; `configure` and `reset`
 * messages; each latency notification recorded in `latencyPosts`.
 */
module PitchShiftProcessor {
  import opened JsValues
  import opened HostMath
  import opened PitchShiftConfig
  import opened PitchShiftRing
  import opened PitchShiftChannel

  /**
   * The ratio of one block: the last value of the k-rate `ratio` array,
   * or 1 when it is empty, clamped to [0.25, 4]. A NaN stays NaN
   * (Math.max and Math.min pass it through); the channel's smoothing
   * then treats it as 1.
   */
  function BlockRatio(param: seq<Num>): (r: Num)
    ensures r.Fin? || r.NaN?
    ensures r.NaN? <==> |param| > 0 && param[|param| - 1].NaN?
    ensures r.Fin? ==> MinRatio <= r.v <= MaxRatio
    ensures |param| == 0 ==> r == Fin(1.0)
    ensures |param| > 0 && param[|param| - 1].Fin? && MinRatio <= param[|param| - 1].v <= MaxRatio
            ==> r == param[|param| - 1]
  {
    var v := if |param| > 0 then param[|param| - 1] else Fin(1.0);
    Min(Fin(MaxRatio), Max(Fin(MinRatio), v))
  }

  /**
   * The input of output channel `ch`: null when the input is missing or
   * has no channels, otherwise channel `ch`, or the last input channel
   * when there are fewer input channels than outputs.
   */
  function SourceFor(input: seq<seq<real>>, ch: nat): (src: Option<seq<real>>)
    ensures src.None? <==> |input| == 0
    ensures src.Some? ==> src.value in input
    ensures ch < |input| ==> src == Some(input[ch])
    ensures 0 < |input| <= ch ==> src == Some(input[|input| - 1])
  {
    if |input| == 0 then None
    else Some(input[if ch < |input| then ch else |input| - 1])
  }

  /** How many passes `for (i = 0; i < count; i++)` makes: the naturals below `count`. */
  function ChannelTarget(count: Num): (n: nat)
    requires !count.PosInf?
    ensures forall i: nat :: i < n <==> Below(i, count)
  {
    if count.Fin? then
      var x := count.v;
      if x <= 0.0 then 0
      else if x == x.Floor as real then x.Floor
      else x.Floor + 1
    else 0
  }

  /**
   * `_ensureChannels` as written, for a count of +Infinity: the loop
   * test holds at every pass, so the loop never stops adding channels.
   */
  lemma AsWrittenChannelsNeverStop(i: nat)
    ensures Below(i, PosInf)
  {
  }

  /** The channel count of `opts.maxChannels || 2` when that is missing. */
  const DefaultChannels: nat := 2

  /**
   * The number of channels the constructor creates, as evidently
   * intended: the passes of `_ensureChannels`' loop for every count it
   * finishes on, and the default for +Infinity, on which the loop as
   * written never ends (see `AsWrittenChannelsNeverStop`).
   */
  function ChannelCount(count: Num): (n: nat)
    ensures !count.PosInf? ==> forall i: nat :: i < n <==> Below(i, count)
    ensures count.PosInf? ==> n == DefaultChannels
  {
    if count.PosInf? then DefaultChannels else ChannelTarget(count)
  }

  /** The loop test `i < count`. */
  predicate Below(i: nat, count: Num) {
    Less(Fin(i as real), count)
  }

  /** `value || fallback` for a numeric option, converted as the comparisons that use it convert. */
  function OptionOr(value: Val, fallback: real, parse: string -> Num): (n: Num)
    ensures !Truthy(value) ==> n == Fin(fallback)
    ensures value.Number? && Truthy(value) ==> n == value.n
  {
    if Truthy(value) then ToNumber(value, parse) else Fin(fallback)
  }

  datatype Message = Configure(fftSize: Option<Num>, overlap: Option<Num>) | Reset | Ignored

  /**
   * The message a `data` payload carries: anything that is not a
   * non-null object with type 'configure' or 'reset' is ignored; the
   * sizes of a configure count only when they are numbers.
   */
  function Decode(data: Val): (m: Message)
    ensures m.Ignored? <==> !Truthy(data) || !IsObject(data)
                            || (Get(data, "type") != Str("configure") && Get(data, "type") != Str("reset"))
    ensures m.Configure? ==> (m.fftSize.Some? <==> IsNumber(Get(data, "fftSize")))
                             && (m.overlap.Some? <==> IsNumber(Get(data, "overlap")))
    ensures m.Configure? && m.fftSize.Some? ==> Get(data, "fftSize") == Number(m.fftSize.value)
    ensures m.Configure? && m.overlap.Some? ==> Get(data, "overlap") == Number(m.overlap.value)
  {
    if !Truthy(data) || !IsObject(data) then Ignored
    else if Get(data, "type") == Str("configure") then
      var size := Get(data, "fftSize");
      var slices := Get(data, "overlap");
      Configure(if size.Number? then Some(size.n) else None, if slices.Number? then Some(slices.n) else None)
    else if Get(data, "type") == Str("reset") then Reset
    else Ignored
  }

  /** Output arrays that are pairwise distinct and none of them inside `repr`. */
  ghost predicate OutputsApart(outputs: seq<array<real>>, repr: set<object>)
  {
    && (forall i, j :: 0 <= i < j < |outputs| ==> outputs[i] != outputs[j])
    && (forall i :: 0 <= i < |outputs| ==> outputs[i] !in repr)
  }

  /** Every input channel holds at least as many samples as every output block. */
  ghost predicate InputsCover(input: seq<seq<real>>, outputs: seq<array<real>>)
  {
    forall i, j :: 0 <= i < |input| && 0 <= j < |outputs| ==> |input[i]| >= outputs[j].Length
  }

  /** What a ring holds, oldest first (nothing for a ring whose cursors are out of place). */
  ghost function Held(r: Ring): (s: seq<real>)
    reads r, r.data
    ensures r.Valid() ==> s == r.Contents() && |s| == r.count
  {
    if r.Valid() then r.Contents() else []
  }

  /** The state a channel carries from one block to the next: its smoothed ratio and what its two rings hold. */
  datatype Carried = Carried(ratio: real, input: seq<real>, output: seq<real>)

  /** A channel's ratio state and ring contents, 1 and empty for a fresh or reset channel. */
  const Fresh: Carried := Carried(1.0, [], [])

  ghost function Carry(c: Channel): Carried
    reads c, c.vocoder.inRing, c.vocoder.inRing.data, c.vocoder.outRing, c.vocoder.outRing.data
  {
    Carried(c.pitchRatioState, Held(c.vocoder.inRing), Held(c.vocoder.outRing))
  }

  /**
   * Channel c is valid and runs at `rate`, and it and its rings lie in
   * its footprint. `depth` is only a device: every depth means the same
   * (`AliveMeans`), and stating the fact at depth 1 lets the verifier
   * carry it for many channels at once without unfolding each channel's
   * invariant.
   */
  ghost predicate Live(c: Channel, rate: real, depth: nat)
    reads c, c.Repr
    decreases depth
  {
    && c in c.Repr && c.vocoder.inRing in c.Repr && c.vocoder.inRing.data in c.Repr
    && c.vocoder.outRing in c.Repr && c.vocoder.outRing.data in c.Repr
    && if depth == 0 then c.Valid() && c.sampleRate == rate else Live(c, rate, depth - 1)
  }

  /** A channel that is valid at the given sample rate. */
  ghost predicate Alive(c: Channel, rate: real)
    reads c, c.Repr
  {
    Live(c, rate, 1)
  }

  lemma AliveMeans(c: Channel, rate: real)
    ensures Alive(c, rate) <==> c.Valid() && c.sampleRate == rate
  {
    assert Live(c, rate, 1) <==> Live(c, rate, 0);
  }

  /**
   * The vocoder's overlap is `slices` re-sanitised against `size`; the
   * same device as `Live`, unfolded by `TunedMeans`.
   */
  ghost predicate Resliced(v: Vocoder, size: nat, slices: nat, depth: nat)
    decreases depth
  {
    size >= 2 && if depth == 0 then SanitizedOverlap(Fin(slices as real), size, v.overlap)
                 else Resliced(v, size, slices, depth - 1)
  }

  /** The channel runs `size` and the overlap `slices` re-sanitised against it. */
  ghost predicate Tuned(c: Channel, size: nat, slices: nat)
    reads c
  {
    c.vocoder.fftSize == size && Resliced(c.vocoder, size, slices, 1)
  }

  lemma TunedMeans(c: Channel, size: nat, slices: nat)
    ensures Tuned(c, size, slices) <==>
      c.vocoder.fftSize == size && size >= 2 && SanitizedOverlap(Fin(slices as real), size, c.vocoder.overlap)
  {
    assert Resliced(c.vocoder, size, slices, 1) <==> Resliced(c.vocoder, size, slices, 0);
  }

  /** With pairwise disjoint footprints, every other channel lies outside channel i's footprint. */
  lemma OthersApart(cs: seq<Channel>, i: nat, repr: set<object>)
    requires i < |cs|
    requires forall k :: 0 <= k < |cs| ==> cs[k] in cs[k].Repr && cs[k].Repr <= repr
    requires forall k, j :: 0 <= k < j < |cs| ==> cs[k].Repr !! cs[j].Repr
    ensures forall k :: 0 <= k < |cs| && k != i ==> cs[k] in repr - cs[i].Repr && cs[k].Repr <= repr - cs[i].Repr
  {
    forall k | 0 <= k < |cs| && k != i
      ensures cs[k] in repr - cs[i].Repr && cs[k].Repr <= repr - cs[i].Repr
    {
      if k < i {
        assert cs[k].Repr !! cs[i].Repr;
      } else {
        assert cs[i].Repr !! cs[k].Repr;
      }
    }
  }

  /**
   * Channels other than i whose footprints are untouched stay alive at
   * their configuration and carry the same state.
   */
  twostate lemma OthersKept(new cs: seq<Channel>, new i: nat, new rate: real, rest: set<object>,
                            new size: nat, new slices: nat)
    requires forall k :: 0 <= k < |cs| && k != i ==> old(cs[k] in rest && cs[k].Repr <= rest && Alive(cs[k], rate))
    requires unchanged(rest)
    ensures forall k :: 0 <= k < |cs| && k != i ==>
      && Alive(cs[k], rate) && cs[k].Repr == old(cs[k].Repr) && cs[k].vocoder == old(cs[k].vocoder)
      && (Tuned(cs[k], size, slices) <==> old(Tuned(cs[k], size, slices)))
      && Carry(cs[k]) == old(Carry(cs[k]))
  {
  }

  /**
   * Footprints stay pairwise disjoint when only channel i's changed, and
   * only by objects allocated since.
   */
  twostate lemma StillApart(cs: seq<Channel>, new i: nat)
    requires i < |cs|
    requires forall k, j :: 0 <= k < j < |cs| ==> old(cs[k].Repr !! cs[j].Repr)
    requires forall k :: 0 <= k < |cs| && k != i ==> cs[k].Repr == old(cs[k].Repr)
    requires fresh(cs[i].Repr - old(cs[i].Repr))
    ensures forall k, j :: 0 <= k < j < |cs| ==> cs[k].Repr !! cs[j].Repr
  {
    forall k, j | 0 <= k < j < |cs|
      ensures cs[k].Repr !! cs[j].Repr
    {
      assert old(cs[k].Repr !! cs[j].Repr);
    }
  }

  /**
   * A channel with vocoder v went from `before` to `after` in one block:
   * the ratio smoothed once toward the block ratio, the source block
   * pushed into the input ring (which keeps its last 4·fftSize samples)
   * with the samples its frames consumed taken off the front, fewer than
   * fftSize samples left waiting, and the output block read from the
   * output ring after the frames' samples `emitted` were appended; what
   * the block did not read stays in the output ring for the next block.
   */
  ghost predicate Ran(v: Vocoder, before: Carried, after: Carried, src: Option<seq<real>>,
                      block: seq<real>, ratio: Num, emitted: seq<real>)
  {
    && after.ratio == SmoothedRatio(before.ratio, ratio)
    && |after.input| < v.fftSize
    && (src.Some? ==> |src.value| >= |block|)
    && (var pushed := Last(before.input + BlockInput(src, |block|), v.inRing.data.Length);
        |emitted| <= |pushed| && after.input == pushed[|emitted|..])
    && block == BlockOutput(Last(before.output + emitted, v.outRing.data.Length), |block|)
    && after.output == Leftover(Last(before.output + emitted, v.outRing.data.Length), |block|)
  }

  /** A channel whose footprint is apart from every other one keeps the channels pairwise apart. */
  lemma AppendApart(cs: seq<Channel>, c: Channel)
    requires forall k, j :: 0 <= k < j < |cs| ==> cs[k].Repr !! cs[j].Repr
    requires forall k :: 0 <= k < |cs| ==> cs[k].Repr !! c.Repr
    ensures forall k, j :: 0 <= k < j < |cs + [c]| ==> (cs + [c])[k].Repr !! (cs + [c])[j].Repr
  {
    forall k, j | 0 <= k < j < |cs + [c]|
      ensures (cs + [c])[k].Repr !! (cs + [c])[j].Repr
    {
      if j < |cs| {
        assert cs[k].Repr !! cs[j].Repr;
      } else {
        assert cs[k].Repr !! c.Repr;
      }
    }
  }

  /** A processor whose channels kept their footprints, vocoders and liveness is still valid. */
  twostate lemma StillValid(p: Processor)
    requires old(p.Valid()) && unchanged(p)
    requires forall k :: 0 <= k < |p.channels| ==>
      Alive(p.channels[k], p.sampleRate) && p.channels[k].Repr == old(p.channels[k].Repr)
      && p.channels[k].vocoder == old(p.channels[k].vocoder)
    ensures p.Valid()
  {
  }

  /**
   * The channel operations at the processor's level: a channel's
   * constructor, processBlock, configure and reset, each stated through
   * `Alive`, `Tuned` and `Carry`.
   */
  method NewChannel(rate: real, size: nat, slices: nat, math: Math) returns (c: Channel)
    requires rate > 0.0 && IsFftSize(size) && slices >= 2
    ensures fresh(c.Repr) && Alive(c, rate) && Tuned(c, size, slices) && Carry(c) == Fresh
  {
    c := new Channel(rate, Fin(size as real), Fin(slices as real), math);
    SanitizedFftSizeFixes(size, c.vocoder.fftSize);
    AliveMeans(c, rate);
    TunedMeans(c, size, slices);
  }

  method RunBlock(c: Channel, rate: real, src: Option<seq<real>>, out: array<real>, ratio: Num, math: Math)
    returns (ghost e: seq<real>)
    requires Alive(c, rate) && out !in c.Repr
    requires src.Some? ==> |src.value| >= out.Length
    modifies c.Repr, out
    ensures Alive(c, rate) && c.Repr == old(c.Repr) && c.vocoder == old(c.vocoder)
    ensures Ran(c.vocoder, old(Carry(c)), Carry(c), src, out[..], ratio, e)
  {
    AliveMeans(c, rate);
    e := c.ProcessBlock(src, out, ratio, math);
    AliveMeans(c, rate);
  }

  method Retune(c: Channel, rate: real, size: nat, slices: nat, math: Math)
    requires Alive(c, rate) && IsFftSize(size) && slices >= 2
    modifies c
    ensures Alive(c, rate) && fresh(c.Repr - old(c.Repr)) && Tuned(c, size, slices) && Carry(c) == Fresh
  {
    AliveMeans(c, rate);
    c.Configure(Fin(size as real), Fin(slices as real), math);
    SanitizedFftSizeFixes(size, c.vocoder.fftSize);
    AliveMeans(c, rate);
    TunedMeans(c, size, slices);
  }

  method Clear(c: Channel, rate: real)
    requires Alive(c, rate)
    modifies c.Repr
    ensures Alive(c, rate) && c.Repr == old(c.Repr) && c.vocoder == old(c.vocoder) && Carry(c) == Fresh
  {
    AliveMeans(c, rate);
    c.Reset();
    AliveMeans(c, rate);
  }

  class Processor {
    const sampleRate: real
    var fftSize: nat
    var overlap: nat
    var channels: seq<Channel>
    var latencyPosts: seq<nat>
    ghost var Repr: set<object>

    /** Everything but the agreement of the channels with the configuration. */
    ghost predicate Sound()
      reads this, Repr
    {
      && this in Repr
      && sampleRate > 0.0
      && IsFftSize(fftSize) && overlap >= 2
      && (forall i :: 0 <= i < |channels| ==>
            channels[i] in Repr && channels[i].Repr <= Repr && this !in channels[i].Repr)
      && (forall i :: 0 <= i < |channels| ==> Alive(channels[i], sampleRate))
      && (forall i, j :: 0 <= i < j < |channels| ==> channels[i].Repr !! channels[j].Repr)
    }

    ghost predicate Valid()
      reads this, Repr
    {
      Sound() && forall i :: 0 <= i < |channels| ==> Tuned(channels[i], fftSize, overlap)
    }

    /** The state channel ch carries; a channel not yet created counts as fresh. */
    ghost function State(ch: nat): Carried
      reads this, Repr
      requires Sound()
    {
      if ch < |channels| then Carry(channels[ch]) else Fresh
    }

    /**
     * _notifyLatency's payload: the first channel's latency, 0 with no
     * channels; with a channel it is fftSize minus that channel's hop.
     */
    function Latency(): (n: nat)
      reads this, Repr
      requires Valid()
      ensures |channels| == 0 ==> n == 0
      ensures |channels| > 0 ==> n + channels[0].vocoder.hopSize == fftSize && n < fftSize
    {
      if |channels| > 0 then
        AliveMeans(channels[0], sampleRate);
        channels[0].vocoder.latencySamples
      else 0
    }

    /**
     * constructor(options): the size and overlap from processorOptions
     * (2048 and 4 when absent or falsy), `maxChannels` channels (2 by
     * default, and for +Infinity, see `ChannelCount`), and one latency
     * notification.
     */
    constructor (sampleRate: real, options: Val, parse: string -> Num, math: Math)
      requires sampleRate > 0.0
      ensures Valid() && fresh(Repr)
      ensures this.sampleRate == sampleRate
      ensures SanitizedFftSize(OptionOr(Get(options, "fftSize"), 2048.0, parse), fftSize)
      ensures SanitizedOverlap(OptionOr(Get(options, "overlap"), 4.0, parse), fftSize, overlap)
      ensures |channels| == ChannelCount(OptionOr(Get(options, "maxChannels"), 2.0, parse))
      ensures forall i :: 0 <= i < |channels| ==> channels[i].vocoder.overlap == overlap && State(i) == Fresh
      ensures latencyPosts == [Latency()]
    {
      this.sampleRate := sampleRate;
      var size := SanitizeFftSize(OptionOr(Get(options, "fftSize"), 2048.0, parse));
      FftSizeIsPowerOfTwo(size);
      var slices := SanitizeOverlap(OptionOr(Get(options, "overlap"), 4.0, parse), size);
      fftSize := size;
      overlap := slices;
      channels := [];
      latencyPosts := [];
      Repr := {this};
      new;
      Start(ChannelCount(OptionOr(Get(options, "maxChannels"), 2.0, parse)), math);
    }

    /** The rest of the constructor: create `count` channels, then post the latency. */
    method Start(count: nat, math: Math)
      requires Valid() && channels == [] && latencyPosts == []
      requires overlap <= fftSize && fftSize % overlap == 0
      modifies this
      ensures Valid() && fresh(Repr - old(Repr))
      ensures fftSize == old(fftSize) && overlap == old(overlap) && |channels| == count
      ensures forall i :: 0 <= i < |channels| ==> channels[i].vocoder.overlap == overlap && State(i) == Fresh
      ensures latencyPosts == [Latency()]
    {
      EnsureChannels(count, math);
      OverlapsAgree();
      NotifyLatency();
    }

    /** Channels tuned to a sanitised overlap hold exactly that overlap. */
    lemma OverlapsAgree()
      requires Valid() && overlap <= fftSize && fftSize % overlap == 0
      ensures forall i :: 0 <= i < |channels| ==> channels[i].vocoder.overlap == overlap
    {
      forall i | 0 <= i < |channels|
        ensures channels[i].vocoder.overlap == overlap
      {
        assert Tuned(channels[i], fftSize, overlap);
        TunedMeans(channels[i], fftSize, overlap);
        SanitizedOverlapFixes(fftSize, overlap, channels[i].vocoder.overlap);
      }
    }

    /**
     * _ensureChannels(count): append fresh channels at the current
     * configuration until there are `count`; existing channels are kept.
     */
    method EnsureChannels(count: nat, math: Math)
      requires Valid()
      modifies this
      ensures Valid()
      ensures fftSize == old(fftSize) && overlap == old(overlap) && latencyPosts == old(latencyPosts)
      ensures |channels| == if count > old(|channels|) then count else old(|channels|)
      ensures channels[..old(|channels|)] == old(channels)
      ensures old(Repr) <= Repr && fresh(Repr - old(Repr))
      ensures forall i :: 0 <= i < |channels| ==> State(i) == old(State(i))
    {
      while |channels| < count
        invariant Valid()
        invariant fftSize == old(fftSize) && overlap == old(overlap) && latencyPosts == old(latencyPosts)
        invariant |channels| == old(|channels|) || old(|channels|) < |channels| <= count
        invariant channels[..old(|channels|)] == old(channels)
        invariant old(Repr) <= Repr && fresh(Repr - old(Repr))
        invariant forall i :: 0 <= i < |channels| ==> State(i) == old(State(i))
        decreases count - |channels|
      {
        AddChannel(math);
      }
    }

    /** One pass of _ensureChannels: push a new channel at the current configuration. */
    method AddChannel(math: Math)
      requires Valid()
      modifies this
      ensures Valid()
      ensures fftSize == old(fftSize) && overlap == old(overlap) && latencyPosts == old(latencyPosts)
      ensures |channels| == old(|channels|) + 1 && channels[..old(|channels|)] == old(channels)
      ensures old(Repr) <= Repr && fresh(Repr - old(Repr))
      ensures forall i :: 0 <= i < |channels| ==> State(i) == old(State(i))
    {
      var n := |channels|;
      ghost var cs := channels;
      ghost var rest := Repr - {this};
      var c: Channel;
      label before:
      c := NewChannel(sampleRate, fftSize, overlap, math);
      assert forall k :: 0 <= k < n ==> cs[k].Repr !! c.Repr;
      AppendApart(cs, c);
      channels := channels + [c];
      Repr := Repr + c.Repr;
      assert unchanged@before(rest);
      OthersKept@before(cs, n, sampleRate, rest, fftSize, overlap);
      assert channels[..n] == cs;
    }

    /**
     * process(inputs, outputs, parameters) for inputs[0] = `input`
     * (a missing input is the empty one), outputs[0] = `output` and the
     * k-rate `ratio` array. With no output nothing happens. Otherwise
     * there is a channel per output channel, and channel ch runs its
     * block from SourceFor(input, ch) at the block's ratio; `emitted[ch]`
     * is what its frames produced. Channels beyond the outputs keep
     * their state.
     */
    method Process(input: seq<seq<real>>, output: Option<seq<array<real>>>, ratio: seq<Num>, math: Math)
      returns (ghost emitted: seq<seq<real>>)
      requires Valid()
      requires output.Some? ==> OutputsApart(output.value, Repr) && InputsCover(input, output.value)
      modifies this, Repr, if output.Some? then set o | o in output.value else {}
      ensures Valid()
      ensures output.None? ==> emitted == [] && Repr == old(Repr) && unchanged(Repr)
      ensures fftSize == old(fftSize) && overlap == old(overlap) && latencyPosts == old(latencyPosts)
      ensures output.Some? ==> |emitted| == |output.value|
      ensures output.Some? ==>
        |channels| == (if |output.value| > old(|channels|) then |output.value| else old(|channels|))
        && channels[..old(|channels|)] == old(channels)
      ensures output.Some? ==> forall ch :: 0 <= ch < |output.value| ==>
        Ran(channels[ch].vocoder, old(State(ch)), State(ch), SourceFor(input, ch), output.value[ch][..],
            BlockRatio(ratio), emitted[ch])
      ensures output.Some? ==> forall ch :: |output.value| <= ch < |channels| ==> State(ch) == old(State(ch))
    {
      if output.None? {
        return [];
      }
      var outputs := output.value;
      EnsureChannels(|outputs|, math);
      emitted := RunChannels(SourcesFor(input, |outputs|), outputs, BlockRatio(ratio), math);
    }

    /** SourceFor for every output channel. */
    static function SourcesFor(input: seq<seq<real>>, count: nat): (srcs: seq<Option<seq<real>>>)
      ensures |srcs| == count
      ensures forall ch :: 0 <= ch < count ==> srcs[ch] == SourceFor(input, ch)
    {
      seq(count, ch requires 0 <= ch < count => SourceFor(input, ch))
    }

    /** The per-channel loop of process: channel ch runs its block from srcs[ch] into outputs[ch]. */
    method RunChannels(srcs: seq<Option<seq<real>>>, outputs: seq<array<real>>, ratio: Num, math: Math)
      returns (ghost emitted: seq<seq<real>>)
      requires Valid() && |outputs| <= |channels| && |srcs| == |outputs|
      requires OutputsApart(outputs, Repr)
      requires forall ch :: 0 <= ch < |srcs| && srcs[ch].Some? ==> |srcs[ch].value| >= outputs[ch].Length
      modifies Repr - {this}, set o | o in outputs
      ensures Valid() && |emitted| == |outputs|
      ensures forall ch :: 0 <= ch < |outputs| ==>
        Ran(channels[ch].vocoder, old(Carry(channels[ch])), Carry(channels[ch]), srcs[ch], outputs[ch][..], ratio, emitted[ch])
      ensures forall ch :: |outputs| <= ch < |channels| ==> Carry(channels[ch]) == old(Carry(channels[ch]))
    {
      emitted := [];
      var ch := 0;
      while ch < |outputs|
        invariant 0 <= ch <= |outputs| && |emitted| == ch
        invariant Valid()
        invariant forall k :: 0 <= k < ch ==>
          Ran(channels[k].vocoder, old(Carry(channels[k])), Carry(channels[k]), srcs[k], outputs[k][..], ratio, emitted[k])
        invariant forall k :: ch <= k < |channels| ==> Carry(channels[k]) == old(Carry(channels[k]))
        invariant forall k :: 0 <= k < |channels| ==> channels[k].vocoder == old(channels[k].vocoder)
      {
        label step:
        var e := RunOne(ch, srcs[ch], outputs[ch], ratio, math);
        ghost var done := emitted;
        emitted := emitted + [e];
        forall k | 0 <= k <= ch
          ensures Ran(channels[k].vocoder, old(Carry(channels[k])), Carry(channels[k]), srcs[k], outputs[k][..], ratio, emitted[k])
        {
          if k < ch {
            assert outputs[k] != outputs[ch];
            assert outputs[k][..] == old@step(outputs[k][..]);
            assert emitted[k] == done[k];
          }
        }
        ch := ch + 1;
      }
    }

    /** One pass of the per-channel loop: channel ch runs its block, the others keep their state. */
    method RunOne(ch: nat, src: Option<seq<real>>, out: array<real>, ratio: Num, math: Math)
      returns (ghost e: seq<real>)
      requires Valid() && ch < |channels| && out !in Repr
      requires src.Some? ==> |src.value| >= out.Length
      modifies Repr - {this}, out
      ensures Valid()
      ensures Ran(channels[ch].vocoder, old(Carry(channels[ch])), Carry(channels[ch]), src, out[..], ratio, e)
      ensures forall k :: 0 <= k < |channels| && k != ch ==> Carry(channels[k]) == old(Carry(channels[k]))
      ensures forall k :: 0 <= k < |channels| ==> channels[k].vocoder == old(channels[k].vocoder)
    {
      var c := channels[ch];
      OthersApart(channels, ch, Repr);
      ghost var rest := Repr - c.Repr;
      label before:
      e := RunBlock(c, sampleRate, src, out, ratio, math);
      assert unchanged@before(rest);
      OthersKept@before(channels, ch, sampleRate, rest, fftSize, overlap);
      StillApart@before(channels, ch);
      StillValid@before(this);
    }

    /**
     * _handleMessage(event) with event.data = `data`. A configure
     * sanitises whichever of fftSize and overlap are numbers (the overlap
     * against the new size), reconfigures every channel and notifies the
     * latency; a reset resets every channel and notifies the latency;
     * anything else changes nothing.
     */
    method HandleMessage(data: Val, math: Math)
      requires Valid()
      modifies this, Repr
      ensures Valid() && |channels| == old(|channels|)
      ensures Decode(data).Ignored? ==>
        Repr == old(Repr) && unchanged(Repr)
      ensures Decode(data).Configure? ==>
        Reconfigured(Decode(data).fftSize, Decode(data).overlap, old(fftSize), old(overlap), old(latencyPosts))
      ensures Decode(data).Reset? ==>
        && fftSize == old(fftSize) && overlap == old(overlap) && channels == old(channels)
        && (forall i :: 0 <= i < |channels| ==> State(i) == Fresh)
        && latencyPosts == old(latencyPosts) + [Latency()]
    {
      match Decode(data)
      case Ignored =>
      case Configure(size, slices) =>
        Reconfigure(size, slices, math);
      case Reset =>
        ResetChannels();
        NotifyLatency();
    }

    /**
     * After a configure message carrying `size` and `slices` (each
     * present only when it was a number) from the configuration
     * size0/slices0: a given size is sanitised, a given overlap is
     * sanitised against the new size, what was not given stays, every
     * channel is fresh, and the latency was posted once.
     */
    ghost predicate Reconfigured(size: Option<Num>, slices: Option<Num>, size0: nat, slices0: nat, posts0: seq<nat>)
      reads this, Repr
    {
      && Valid()
      && (size.Some? ==> SanitizedFftSize(size.value, fftSize))
      && (size.None? ==> fftSize == size0)
      && (slices.Some? ==> SanitizedOverlap(slices.value, fftSize, overlap))
      && (slices.None? ==> overlap == slices0)
      && (forall i :: 0 <= i < |channels| ==> State(i) == Fresh)
      && latencyPosts == posts0 + [Latency()]
    }

    /** The configure branch of _handleMessage. */
    method Reconfigure(size: Option<Num>, slices: Option<Num>, math: Math)
      requires Valid()
      modifies this, Repr
      ensures |channels| == old(|channels|)
      ensures Reconfigured(size, slices, old(fftSize), old(overlap), old(latencyPosts))
    {
      var n := fftSize;
      if size.Some? {
        n := SanitizeFftSize(size.value);
      }
      var o := overlap;
      if slices.Some? {
        FftSizeIsPowerOfTwo(n);
        o := SanitizeOverlap(slices.value, n);
      }
      Apply(n, o, math);
    }

    /** Install a sanitised size and overlap, configure every channel with them, post the latency. */
    method Apply(n: nat, o: nat, math: Math)
      requires Valid() && IsFftSize(n) && o >= 2
      modifies this, Repr
      ensures Valid() && fftSize == n && overlap == o && |channels| == old(|channels|)
      ensures forall i :: 0 <= i < |channels| ==> State(i) == Fresh
      ensures latencyPosts == old(latencyPosts) + [Latency()]
    {
      ghost var rest := Repr - {this};
      label before:
      fftSize, overlap := n, o;
      OthersKept@before(channels, |channels|, sampleRate, rest, fftSize, overlap);
      ConfigureChannels(math);
      NotifyLatency();
    }

    /** _notifyLatency(): post the current latency; nothing else changes. */
    method NotifyLatency()
      requires Valid()
      modifies this
      ensures Valid() && latencyPosts == old(latencyPosts) + [Latency()]
      ensures fftSize == old(fftSize) && overlap == old(overlap) && channels == old(channels) && Repr == old(Repr)
      ensures forall i :: 0 <= i < |channels| ==> State(i) == old(State(i))
    {
      latencyPosts := latencyPosts + [Latency()];
    }

    /** channels[i].configure(fftSize, overlap) for every channel, after a change of configuration. */
    method ConfigureChannels(math: Math)
      requires Sound()
      modifies this, Repr
      ensures Valid()
      ensures fftSize == old(fftSize) && overlap == old(overlap) && latencyPosts == old(latencyPosts)
      ensures channels == old(channels)
      ensures forall i :: 0 <= i < |channels| ==> Carry(channels[i]) == Fresh
    {
      var i := 0;
      while i < |channels|
        invariant Sound() && 0 <= i <= |channels| && channels == old(channels)
        invariant fftSize == old(fftSize) && overlap == old(overlap) && latencyPosts == old(latencyPosts)
        invariant old(Repr) <= Repr && fresh(Repr - old(Repr))
        invariant forall k :: 0 <= k < i ==> Tuned(channels[k], fftSize, overlap) && Carry(channels[k]) == Fresh
      {
        ConfigureOne(i, math);
        i := i + 1;
      }
    }

    /** One pass of the configure loop: channel i gets the current configuration. */
    method ConfigureOne(i: nat, math: Math)
      requires Sound() && i < |channels|
      modifies this, Repr
      ensures Sound() && channels == old(channels)
      ensures fftSize == old(fftSize) && overlap == old(overlap) && latencyPosts == old(latencyPosts)
      ensures old(Repr) <= Repr && fresh(Repr - old(Repr))
      ensures Tuned(channels[i], fftSize, overlap) && Carry(channels[i]) == Fresh
      ensures forall k :: 0 <= k < |channels| && k != i ==>
        && (Tuned(channels[k], fftSize, overlap) <==> old(Tuned(channels[k], fftSize, overlap)))
        && Carry(channels[k]) == old(Carry(channels[k]))
    {
      var c := channels[i];
      OthersApart(channels, i, Repr);
      ghost var rest := Repr - c.Repr - {this};
      label before:
      Retune(c, sampleRate, fftSize, overlap, math);
      Repr := Repr + c.Repr;
      assert unchanged@before(rest);
      OthersKept@before(channels, i, sampleRate, rest, fftSize, overlap);
      StillApart@before(channels, i);
    }

    /** channels[i].reset() for every channel. */
    method ResetChannels()
      requires Valid()
      modifies Repr - {this}
      ensures Valid()
      ensures forall i :: 0 <= i < |channels| ==> Carry(channels[i]) == Fresh
    {
      var i := 0;
      while i < |channels|
        invariant Valid() && 0 <= i <= |channels|
        invariant forall k :: 0 <= k < i ==> Carry(channels[k]) == Fresh
      {
        ResetOne(i);
        i := i + 1;
      }
    }

    /** One pass of the reset loop: channel i is reset, the others keep their state. */
    method ResetOne(i: nat)
      requires Valid() && i < |channels|
      modifies Repr - {this}
      ensures Valid()
      ensures Carry(channels[i]) == Fresh
      ensures forall k :: 0 <= k < |channels| && k != i ==> Carry(channels[k]) == old(Carry(channels[k]))
    {
      var c := channels[i];
      OthersApart(channels, i, Repr);
      ghost var rest := Repr - c.Repr;
      label before:
      Clear(c, sampleRate);
      assert unchanged@before(rest);
      OthersKept@before(channels, i, sampleRate, rest, fftSize, overlap);
      StillApart@before(channels, i);
    }
  }
}
