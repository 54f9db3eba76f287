# dsp-playground in Dafny

A model of the computational core of dsp-playground. That is a browser
application in which audio nodes (oscillators, filters, a phase-vocoder
pitch shifter, sample-and-hold, chaos and LFO modulators, and so on) are
placed on a canvas and patched together. Audio connections carry
signals; parameter connections let a control node modulate another
node's parameter with an override, add or multiply strategy.

The model covers:

- **The audio worklets** (imperative, over arrays):
  - the high-quality pitch shifter:
    - the radix-2 FFT's bit-reversal table, swap pass and butterflies
      (`SpectralEngine`);
    - the FFT-size and overlap sanitisers (`PitchShiftConfig`);
    - the drop-oldest input/output rings (`PitchShiftRing`);
    - the per-channel phase vocoder with its frame loop and per-bin
      accumulators (`PitchShiftChannel`);
    - the multi-channel processor with its messages
      (`PitchShiftProcessor`);
  - the fractional allpass delay (`AllpassDelay`);
  - the sample-and-hold processor (`SampleHold`);
  - the envelope follower (`EnvelopeFollower`).
- **The node layer**:
  - the parameter-modulation combiner and strategy persistence of every
    node (`DspNode`);
  - the subscriber lists shared by the control sources (`Subscribers`);
  - the node classes:
    - sample-and-hold, pitch shifter and synth (`SampleHoldNode`,
      `PitchShifterNode`, `SynthNode`);
    - chaos, LFO, multiply and value (`ChaosNode`, `LfoNode`,
      `MultiplyNode`, `ValueNode`);
    - distortion and absolute (`DistortionNode`, `AbsoluteNode`).
- **The graph editor's list bookkeeping** (`GraphApp`).
- **Shared helpers**: `JsValues` (JavaScript numbers with NaN and the
  infinities, dynamic values, `%`, `Math.round`) and `Lists`.

Samples are exact reals. `Math.sin`, `Math.cos`, `Math.exp`, `Math.pow`,
`Math.hypot` and `Math.atan2` are opaque functions held in a
`HostMath.Math` value. `Math.random`, the audio clock and the global
`sampleRate` are parameters. Messages a worklet posts, and the
`updateParam` calls a control source makes on its subscribers, are
appended to ghost or plain sequences.

## Model

| member | source | states |
|---|---|---|
| SpectralEngine.ReverseBitsLoop | worklets/hq-pitch-shifter.js:24-32 | the shift loop computes the low `bits` bits of `value` in reverse order, and the result is below 2^bits |
| SpectralEngine.ReverseBitsBound | worklets/hq-pitch-shifter.js:24-32 | a bit-reversed index is a valid index of a 2^bits table |
| SpectralEngine.ReverseBitsInvolution | worklets/hq-pitch-shifter.js:24-32 | reversing the bits of an index below 2^bits twice gives the index back |
| SpectralEngine.ReverseBitsStep | worklets/hq-pitch-shifter.js:27-30 | one loop pass appends bit i of the value on the right: r' = 2·r + bit i |
| SpectralEngine.BuildReversalTable | worklets/hq-pitch-shifter.js:11-14 | the table has 2^levels entries and entry i is reverseBits(i, levels) |
| SpectralEngine.BuildTwiddles | worklets/hq-pitch-shifter.js:15-21 | size/2 cosine and sine entries of the angle −2πi/size |
| SpectralEngine.Create | worklets/hq-pitch-shifter.js:4-22 | construction fails exactly when the size is neither 0 nor a power of two (log2(0) is −Infinity, which passes the floor test); otherwise the FFT has that size and a valid table, of size 2^levels when the size is not 0 |
| SpectralEngine.Fft.Empty | worklets/hq-pitch-shifter.js:4-22 | the size-0 FFT: empty tables, and no transform loop runs |
| SpectralEngine.Fft.Build | worklets/hq-pitch-shifter.js:4-22 | an FFT of size 2^levels with the reversal table and twiddles filled |
| SpectralEngine.Fft.TableIsInvolution | worklets/hq-pitch-shifter.js:11-14 | every table entry is an index and rev[rev[i]] == i |
| SpectralEngine.Fft.BitReversePermute | worklets/hq-pitch-shifter.js:37-47 | after the `j > i` swap pass, entry i of both arrays holds the old entry rev[i] |
| SpectralEngine.SwapPass | worklets/hq-pitch-shifter.js:37-47 | for an involutive table the swap loop moves each entry k to place rev[k], in both arrays |
| SpectralEngine.Fft.Butterflies | worklets/hq-pitch-shifter.js:49-67 | every butterfly stage stays within the arrays, and an all-zero spectrum stays all zero |
| SpectralEngine.Fft.ButterflyStage | worklets/hq-pitch-shifter.js:52-66 | one stage of width 2·halfLen keeps the indices in range and zero stays zero |
| SpectralEngine.Fft.ButterflyBlock | worklets/hq-pitch-shifter.js:53-65 | one block of a stage keeps the indices in range and zero stays zero |
| SpectralEngine.Fft.ScaleInverse | worklets/hq-pitch-shifter.js:69-75 | the inverse transform divides every entry of both arrays by size |
| SpectralEngine.ScaleAll | worklets/hq-pitch-shifter.js:71-74 | every entry of both arrays is multiplied by the factor |
| SpectralEngine.Fft.Transform | worklets/hq-pitch-shifter.js:34-76 | the swap pass, the stages and (for the inverse) the 1/size scaling; silence in gives silence out |
| PitchShiftConfig.FftSizeIsPowerOfTwo | worklets/hq-pitch-shifter.js:305-312 | every size the sanitiser can produce (512 to 8192) is an even power of two |
| PitchShiftConfig.SanitizeFftSize | worklets/hq-pitch-shifter.js:305-312 | the result is a power of two in [512, 8192]; it is the smallest such value not below the request, or 8192 when the request is larger |
| PitchShiftConfig.SanitizedFftSizeUnique | worklets/hq-pitch-shifter.js:305-312 | the sanitised size of a request is unique |
| PitchShiftConfig.SanitizedFftSizeFixes | worklets/hq-pitch-shifter.js:416-423 | sanitising a size the sanitiser already produced gives it back unchanged |
| PitchShiftConfig.ShiftLeft32 | worklets/hq-pitch-shifter.js:308 | `x << 1` on a 32-bit signed value stays in 32-bit range and equals 2x when that fits |
| PitchShiftConfig.AsWrittenPower | worklets/hq-pitch-shifter.js:306-309 | the loop's value after k shifts, with 32-bit wrap-around, always a 32-bit signed integer |
| PitchShiftConfig.AsWrittenPowerClosedForm | worklets/hq-pitch-shifter.js:306-309 | the shifted value is 512·2^k up to k = 21, then −2^31 at k = 22, then 0 forever |
| PitchShiftConfig.AsWrittenNeverExits | worklets/hq-pitch-shifter.js:307-309 | for any request above 2^30, +Infinity included, the loop test `power < size` holds after every pass |
| PitchShiftConfig.AsWrittenHangsOnTwoPow31 | worklets/hq-pitch-shifter.js:416-420 | the concrete request 2^31 keeps the loop test true after every pass |
| PitchShiftConfig.OverlapStart | worklets/hq-pitch-shifter.js:315-316 | the start value max(2, floor(overlap)) capped at size lies in [2, size] |
| PitchShiftConfig.SanitizeOverlap | worklets/hq-pitch-shifter.js:314-324 | the result is the largest divisor of size between 2 and the start value, or 2 when there is none (NaN gives 2) |
| PitchShiftConfig.SanitizedOverlapFixes | worklets/hq-pitch-shifter.js:425-435 | an overlap that already divides the size comes back unchanged |
| PitchShiftConfig.HopSize | worklets/hq-pitch-shifter.js:91 | the hop is at least 1, and equals fftSize / overlap when the overlap is not larger than the size |
| PitchShiftConfig.LatencySamples | worklets/hq-pitch-shifter.js:128 | latency + hop == fftSize whenever the hop fits in the frame |
| PitchShiftConfig.HopTilesFrame | worklets/hq-pitch-shifter.js:86-128 | for a sanitised size and overlap, overlap·hop == fftSize exactly, 1 ≤ hop ≤ fftSize/2 and the latency is fftSize − hop |
| PitchShiftRing.Ring.constructor | worklets/hq-pitch-shifter.js:113-121 | a zero-filled ring of the given capacity holding nothing |
| PitchShiftRing.Ring.Push | worklets/hq-pitch-shifter.js:177-185 | after a push the ring holds the last `capacity` samples of its old contents followed by the new one, oldest first |
| PitchShiftRing.Ring.PushAll | worklets/hq-pitch-shifter.js:154-157 | pushing a block leaves the last `capacity` samples of contents followed by the block |
| PitchShiftRing.Ring.Pop | worklets/hq-pitch-shifter.js:187-193 | an empty ring gives 0 and does not change; otherwise the oldest sample is returned and removed |
| PitchShiftRing.Ring.Discard | worklets/hq-pitch-shifter.js:289-290 | the read cursor moves n places: the n oldest samples are gone |
| PitchShiftRing.Ring.Clear | worklets/hq-pitch-shifter.js:134-139 | all cursors back to 0: the ring holds nothing |
| PitchShiftRing.WindowDrop | worklets/hq-pitch-shifter.js:212-217 | the circular window after advancing the start n places is the old window without its first n samples |
| PitchShiftRing.WindowSnoc | worklets/hq-pitch-shifter.js:182-184 | storing at the write cursor extends the circular window by that sample |
| PitchShiftChannel.SmoothedRatio | worklets/hq-pitch-shifter.js:168-175 | the smoothed ratio always lies in [0.25, 4] |
| PitchShiftChannel.NonPositiveTargetIsUnity | worklets/hq-pitch-shifter.js:169 | a target that is not positive, NaN included, acts as a target of 1 |
| PitchShiftChannel.SmoothingMovesTowardsTarget | worklets/hq-pitch-shifter.js:168-175 | from a state in range towards a target in range, one step lands between the state and the target |
| PitchShiftChannel.PrincipalDeviation | worklets/hq-pitch-shifter.js:230-231 | the unwrapped phase deviation lies in [−π, π) |
| PitchShiftChannel.CountToOutOfRange | worklets/hq-pitch-shifter.js:238-243 | a bin outside [0, half] is never credited: its count, magnitude sum and increment sum are 0 |
| PitchShiftChannel.WrapPhase | worklets/hq-pitch-shifter.js:251-254 | the synthesis phase stays in [−2π, 2π] and is untouched when it already lies there |
| PitchShiftChannel.BlockInput | worklets/hq-pitch-shifter.js:154-157 | `input ? input[i] : 0` for each frame of the block |
| PitchShiftChannel.BlockOutput | worklets/hq-pitch-shifter.js:163-165 | each output slot takes the next ring sample while there is one, then 0 |
| PitchShiftChannel.Leftover | worklets/hq-pitch-shifter.js:163-165 | the ring samples a block of that many slots leaves unread, in order |
| PitchShiftChannel.BlockOutputThenLeftover | worklets/hq-pitch-shifter.js:163-165 | reading a block loses nothing: the samples read followed by those left over are the ring's contents, and a short ring is read out whole and padded with zeros |
| PitchShiftChannel.FillZero | worklets/hq-pitch-shifter.js:287 | `fill(0, from)` zeroes the tail and keeps the front |
| PitchShiftChannel.CopyWithin | worklets/hq-pitch-shifter.js:286 | `copyWithin(0, start)` moves the tail to the front and keeps the last `start` entries |
| PitchShiftChannel.BinWidth | worklets/hq-pitch-shifter.js:93 | the bin width is positive and times fftSize gives the sample rate |
| PitchShiftChannel.ResynthBin | worklets/hq-pitch-shifter.js:247-260 | with no contributor the bin is silent and the phase stays; otherwise the phase advances by the mean increment, wrapped, and a zero magnitude gives a silent bin |
| PitchShiftChannel.CreditStep | worklets/hq-pitch-shifter.js:238-243 | one analysed bin is credited to its target when that lies in range and dropped otherwise |
| PitchShiftChannel.MagToSilent | worklets/hq-pitch-shifter.js:221-243 | when every analysed magnitude is zero, every magnitude sum is zero |
| PitchShiftChannel.ScaleFor | worklets/hq-pitch-shifter.js:293-303 | the window scale is positive, and times the window energy gives the hop when the energy is not zero |
| PitchShiftChannel.ComputeWindowScale | worklets/hq-pitch-shifter.js:293-303 | the energy loop yields hop / energy, or 1 for an all-zero window |
| PitchShiftChannel.Vocoder.constructor | worklets/hq-pitch-shifter.js:86-128 | configure's derived values: hop, bin width, Hann window, expected phases k·2π·hop/size, rings of 4·fftSize and the window scale |
| PitchShiftChannel.Vocoder.Reset | worklets/hq-pitch-shifter.js:133-147 | both rings empty; the phase, accumulator, synthesis and FFT arrays all zero |
| PitchShiftChannel.Vocoder.LoadFrame | worklets/hq-pitch-shifter.js:212-217 | the FFT input is the first fftSize samples waiting in the input ring, times the window; the imaginary parts are zero |
| PitchShiftChannel.Vocoder.Analyse | worklets/hq-pitch-shifter.js:221-244 | each bin's phase is stored; the accumulators hold, for every bin, exactly the contributions credited to it |
| PitchShiftChannel.Vocoder.Resynthesise | worklets/hq-pitch-shifter.js:246-274 | every bin's synthesis phase, real and imaginary part are `ResynthBin` of its old phase and accumulators, which end up all zero; the spectrum handed to the inverse transform is conjugate-symmetric with those bins in its lower half, and a silent spectrum gives a silent frame |
| PitchShiftChannel.Vocoder.Emit | worklets/hq-pitch-shifter.js:276-290 | the overlap-added frame's first hop samples go to the output ring; the accumulator shifts one hop; the input loses its oldest hop samples |
| PitchShiftChannel.Vocoder.ProcessFrame | worklets/hq-pitch-shifter.js:205-291 | one frame takes hop samples off the input and appends hop samples to the output; the accumulators end at zero |
| PitchShiftChannel.Vocoder.AnalyseFrame | worklets/hq-pitch-shifter.js:212-244 | one frame is loaded, windowed and transformed (silence in, silence out); every bin k of the spectrum is `AnalyseBin` of its old analysis phase, its phase is stored, and its magnitude and advance are credited to its target bin |
| PitchShiftChannel.Vocoder.RunFrames | worklets/hq-pitch-shifter.js:159-161 | frames run until fewer than fftSize samples wait; as many samples leave the input as the frames emitted |
| PitchShiftChannel.Vocoder.ProcessBlock | worklets/hq-pitch-shifter.js:151-166 | the block is pushed (zeros for a null input), every complete frame runs, fewer than fftSize samples remain, the output is the ring's samples then zeros, and the output ring keeps exactly the samples the block did not read, for the next block |
| PitchShiftChannel.LoadWindowed | worklets/hq-pitch-shifter.js:212-217 | the windowed circular frame from the start index, with zero imaginary parts |
| PitchShiftChannel.ZeroBins | worklets/hq-pitch-shifter.js:140-144 | the five per-bin arrays are all zero |
| PitchShiftChannel.ZeroThree | worklets/hq-pitch-shifter.js:261-263 | the three accumulators are all zero |
| PitchShiftChannel.AnalyseBins | worklets/hq-pitch-shifter.js:221-244 | each bin k is analysed against its previous and expected phase, its phase stored and its contribution credited |
| PitchShiftChannel.CreditBin | worklets/hq-pitch-shifter.js:238-243 | the target bin gains one count, the magnitude and the phase increment, when it lies in range |
| PitchShiftChannel.ResynthesiseBins | worklets/hq-pitch-shifter.js:246-264 | every bin is rebuilt by `ResynthBin` from its accumulators, the accumulators are cleared, and entries past the bins are untouched |
| PitchShiftChannel.MirrorSpectrum | worklets/hq-pitch-shifter.js:266-272 | the spectrum becomes conjugate-symmetric (bin N−k is the conjugate of bin k; DC and Nyquist are real) and bins 0..half keep their real parts |
| PitchShiftChannel.OverlapAdd | worklets/hq-pitch-shifter.js:276-280 | the accumulator gains the windowed, scaled frame |
| PitchShiftChannel.ShiftOut | worklets/hq-pitch-shifter.js:286-287 | the accumulator moves hop places to the front and zeros come in behind |
| PitchShiftChannel.BuildWindow | worklets/hq-pitch-shifter.js:95-98 | the Hann window 0.5 − 0.5·cos(2πi/size), coefficient by coefficient |
| PitchShiftChannel.BuildExpectedPhase | worklets/hq-pitch-shifter.js:100-105 | bin k's expected phase advance is k times the base advance |
| PitchShiftChannel.PopInto | worklets/hq-pitch-shifter.js:163-165 | the output takes the ring's oldest samples, then zeros; the ring loses what was taken |
| PitchShiftChannel.Configured | worklets/hq-pitch-shifter.js:86-131 | the request is sanitised, overlap·hop == fftSize, latency = fftSize − hop, and the rings are empty, and reset's zeroed analysis and synthesis phases and synthesis buffer hold |
| PitchShiftChannel.Channel.constructor | worklets/hq-pitch-shifter.js:80-84 | ratio state 1 and a sanitised configuration, reset: empty rings, zero phases and a zero synthesis buffer |
| PitchShiftChannel.Channel.Configure | worklets/hq-pitch-shifter.js:86-131 | a new sanitised configuration, reset (empty rings, zero phases, zero synthesis buffer), and the ratio state back to 1 |
| PitchShiftChannel.Channel.Reset | worklets/hq-pitch-shifter.js:133-149 | rings empty, phases and synthesis buffer zero, ratio 1; the configuration stays |
| PitchShiftChannel.Channel.ProcessBlock | worklets/hq-pitch-shifter.js:151-166 | the ratio is smoothed once, then the block runs at it: fewer than fftSize samples remain, the output is the ring's samples then zeros, and the output ring keeps what the block did not read |
| PitchShiftProcessor.BlockRatio | worklets/hq-pitch-shifter.js:362-364 | the last value of the ratio array, 1 when empty, clamped to [0.25, 4]; a NaN passes through |
| PitchShiftProcessor.SourceFor | worklets/hq-pitch-shifter.js:366-376 | null when there is no input; otherwise input channel ch, or the last input channel when there are fewer |
| PitchShiftProcessor.ChannelTarget | worklets/hq-pitch-shifter.js:382-386 | the number of channels `_ensureChannels(count)` reaches: the naturals below count |
| PitchShiftProcessor.AsWrittenChannelsNeverStop | worklets/hq-pitch-shifter.js:382-386 | for a count of +Infinity the loop test `i < count` holds at every pass |
| PitchShiftProcessor.ChannelCount | worklets/hq-pitch-shifter.js:348 | the channels the constructor creates: the loop's passes for every count other than +Infinity, and the default 2 for +Infinity |
| PitchShiftProcessor.OptionOr | worklets/hq-pitch-shifter.js:342-348 | `value || fallback`: the fallback for a falsy value, the number itself otherwise |
| PitchShiftProcessor.Decode | worklets/hq-pitch-shifter.js:388-407 | anything but a non-null object is ignored; a configure carries fftSize and overlap only when they are numbers |
| PitchShiftProcessor.NewChannel | worklets/hq-pitch-shifter.js:384 | a fresh channel tuned to the current size and overlap, in its initial state |
| PitchShiftProcessor.RunBlock | worklets/hq-pitch-shifter.js:368 | one channel runs one block: its ratio, input ring and output ring go from the old to the new as `Ran` describes, the output ring keeping what the block did not read |
| PitchShiftProcessor.Retune | worklets/hq-pitch-shifter.js:399 | one channel is configured afresh |
| PitchShiftProcessor.Clear | worklets/hq-pitch-shifter.js:404 | one channel is reset and keeps its configuration |
| PitchShiftProcessor.Processor.Latency | worklets/hq-pitch-shifter.js:410-414 | 0 without channels; otherwise fftSize − hop of the first channel, below fftSize |
| PitchShiftProcessor.Processor.constructor | worklets/hq-pitch-shifter.js:340-350 | size and overlap from the options (2048 and 4 when falsy), sanitised; maxChannels channels (2 by default, and 2 for +Infinity as corrected under Findings), all fresh; one latency post |
| PitchShiftProcessor.Processor.Start | worklets/hq-pitch-shifter.js:348-349 | count fresh channels, then one latency post |
| PitchShiftProcessor.Processor.OverlapsAgree | worklets/hq-pitch-shifter.js:345 | every channel holds the processor's overlap |
| PitchShiftProcessor.Processor.EnsureChannels | worklets/hq-pitch-shifter.js:382-386 | channels are appended up to count; existing channels and their states are kept |
| PitchShiftProcessor.Processor.AddChannel | worklets/hq-pitch-shifter.js:383-385 | one fresh channel is appended and the others are kept |
| PitchShiftProcessor.Processor.Process | worklets/hq-pitch-shifter.js:352-380 | with no output nothing changes, neither the channels nor their rings; otherwise each output channel's channel runs its block from `SourceFor` at the block ratio as `Ran` says, its output ring keeping what the block did not read for the next call, and channels beyond the outputs keep their state |
| PitchShiftProcessor.Processor.RunChannels | worklets/hq-pitch-shifter.js:373-377 | channel ch runs its block from srcs[ch] into outputs[ch] as `Ran` says, output-ring remainder included; the rest are kept |
| PitchShiftProcessor.Processor.RunOne | worklets/hq-pitch-shifter.js:376 | one channel runs its block as `Ran` says, output-ring remainder included, and the others keep their state |
| PitchShiftProcessor.Processor.HandleMessage | worklets/hq-pitch-shifter.js:388-408 | a configure re-sanitises the sizes given as numbers and reconfigures every channel; a reset resets every channel; either posts the latency once; anything else changes nothing |
| PitchShiftProcessor.Processor.Reconfigure | worklets/hq-pitch-shifter.js:391-401 | a given size is sanitised, a given overlap is sanitised against the new size, the rest stays, every channel is fresh and one latency post is made |
| PitchShiftProcessor.Processor.Apply | worklets/hq-pitch-shifter.js:398-401 | the new size and overlap are installed in every channel and the latency is posted |
| PitchShiftProcessor.Processor.NotifyLatency | worklets/hq-pitch-shifter.js:410-414 | the current latency is appended to the posts and nothing else changes |
| PitchShiftProcessor.Processor.ConfigureChannels | worklets/hq-pitch-shifter.js:398-400 | every channel is reconfigured to a fresh state |
| PitchShiftProcessor.Processor.ConfigureOne | worklets/hq-pitch-shifter.js:399 | channel i is tuned to the configuration and fresh; the others keep their state |
| PitchShiftProcessor.Processor.ResetChannels | worklets/hq-pitch-shifter.js:403-405 | every channel is back in its initial state |
| PitchShiftProcessor.Processor.ResetOne | worklets/hq-pitch-shifter.js:404 | channel i is reset and the others keep their state |
| AllpassDelay.MaxDelay | worklets/allpass-delay-processor.js:26-27 | maxDelaySamples is at least 2, the floor of a finite proposal of 2 or more, and 2 otherwise |
| AllpassDelay.DefaultDelay | worklets/allpass-delay-processor.js:28-29 | defaultDelaySamples lies in [1, max − 1]: the floor of an in-range proposal, clamped at either end |
| AllpassDelay.NumberOr | worklets/allpass-delay-processor.js:26-28 | the option when it is a number, the fallback otherwise |
| AllpassDelay.Clamp | worklets/allpass-delay-processor.js:91-95 | `Math.max(lo, Math.min(hi, x))` lies in [lo, hi], is x inside, and the nearer end outside (the infinities included) |
| AllpassDelay.GainAt | worklets/allpass-delay-processor.js:90-91 | the frame's gain, from a per-frame array or its single value or 0.5, clamped to ±0.999 |
| AllpassDelay.DelayAt | worklets/allpass-delay-processor.js:93-95 | the frame's delay lies in [1, max − 1]; a non-finite value is replaced by the default |
| AllpassDelay.OneValueForAllFrames | worklets/allpass-delay-processor.js:90-93 | a parameter array of length 1 gives every frame its one value |
| AllpassDelay.ReadIndex | worklets/allpass-delay-processor.js:97-100 | the read position lies in [0, len) and is the write cursor minus the delay, plus len when that was negative |
| AllpassDelay.Next | worklets/allpass-delay-processor.js:103 | the next ring position is a valid index |
| AllpassDelay.NextIsMod | worklets/allpass-delay-processor.js:103 | the source's (p + 1) % len is that position |
| AllpassDelay.LerpBetween | worklets/allpass-delay-processor.js:101-104 | an interpolation at a fraction in [0, 1) lies between its ends, and is the first end at 0 |
| AllpassDelay.TapBetween | worklets/allpass-delay-processor.js:101-104 | the interpolated read lies between the two samples it reads, and is the sample itself at a whole position |
| AllpassDelay.EmittedIsAllpass | worklets/allpass-delay-processor.js:107-111 | storing x − g·d and emitting d + g·(x − g·d) gives the allpass output g·x + (1 − g²)·d |
| AllpassDelay.Step | worklets/allpass-delay-processor.js:97-111 | one frame changes only the sample under the cursor, moves the cursor one place and appends one output sample |
| AllpassDelay.StepIsAllpass | worklets/allpass-delay-processor.js:104-111 | a frame stores x − g·d and outputs g·x + (1 − g²)·d, for d the interpolated read |
| AllpassDelay.WholeDelayReadsBack | worklets/allpass-delay-processor.js:97-104 | with a whole delay D the read is exactly the sample at (w − D) mod len |
| AllpassDelay.Block | worklets/allpass-delay-processor.js:89-112 | n frames keep the line's length, leave the cursor in range and append n output samples |
| AllpassDelay.BlockCursor | worklets/allpass-delay-processor.js:109 | after n frames the cursor is n places on around the ring, and earlier output is kept |
| AllpassDelay.BlockWritesPassedOver | worklets/allpass-delay-processor.js:108 | after n frames only the positions the cursor passed over have changed |
| AllpassDelay.SilenceStaysSilent | worklets/allpass-delay-processor.js:104-111 | silence into a cleared line gives silence out and leaves the line cleared |
| AllpassDelay.SilentFrame | worklets/allpass-delay-processor.js:104-111 | one silent frame on a cleared line leaves it cleared and emits 0 |
| AllpassDelay.Resized | worklets/allpass-delay-processor.js:49-51 | the new buffer keeps the first min(old, new) samples and holds zeros after them |
| AllpassDelay.ResizedBack | worklets/allpass-delay-processor.js:49-51 | growing a line and shrinking it back restores it |
| AllpassDelay.ResizedSame | worklets/allpass-delay-processor.js:49-51 | resizing to the same length keeps the line |
| AllpassDelay.ResizedTwice | worklets/allpass-delay-processor.js:49-51 | resizing twice keeps what the smaller of the two sizes keeps |
| AllpassDelay.Decode | worklets/allpass-delay-processor.js:56-67 | a non-object is ignored; type 'reset' resets; type 'configure' with a numeric maxDelaySamples resizes; anything else is ignored |
| AllpassDelay.InputFor | worklets/allpass-delay-processor.js:86 | `input[ch] \|\| input[0] \|\| []` |
| AllpassDelay.Fill | worklets/allpass-delay-processor.js:62 | `fill(0)` zeroes the whole buffer |
| AllpassDelay.Reallocate | worklets/allpass-delay-processor.js:49-51 | a fresh buffer of length n holding `Resized` of the old one |
| AllpassDelay.WrapRead | worklets/allpass-delay-processor.js:97-100 | the two wrapping loops compute `ReadIndex` |
| AllpassDelay.RunLine | worklets/allpass-delay-processor.js:85-114 | one channel's frame loop leaves the line, the cursor and the output as `Block` gives them |
| AllpassDelay.Advance | worklets/allpass-delay-processor.js:89-112 | after frame i the line is `Block`'s for i + 1 frames |
| AllpassDelay.RunFrame | worklets/allpass-delay-processor.js:90-111 | frame i writes the stored sample at the cursor, advances it and writes out[i], as one `Step` |
| AllpassDelay.Processor.constructor | worklets/allpass-delay-processor.js:23-32 | maxDelaySamples and defaultDelaySamples from the options or the sample rate (0.2 s and 0.05 s), sanitised; no lines yet |
| AllpassDelay.Processor.EnsureState | worklets/allpass-delay-processor.js:34-41 | lines are appended up to count; existing lines are untouched and every channel's line reads as before |
| AllpassDelay.Processor.AddLine | worklets/allpass-delay-processor.js:36-39 | one zero line of length max + 4 with cursor 0 is appended |
| AllpassDelay.Processor.ResizeBuffers | worklets/allpass-delay-processor.js:43-54 | nothing changes when the sanitised maximum is the current one; otherwise every line is reallocated at max + 4 with what fits copied, and its cursor is taken modulo the new length |
| AllpassDelay.Processor.ResizeLines | worklets/allpass-delay-processor.js:47-53 | every line is reallocated at the new length |
| AllpassDelay.Processor.ResizeLine | worklets/allpass-delay-processor.js:48-52 | line i is reallocated with what fits and its cursor wrapped; the others are kept |
| AllpassDelay.Processor.ResetLines | worklets/allpass-delay-processor.js:59-64 | every line is zeroed in place with its cursor at 0 |
| AllpassDelay.Processor.ResetLine | worklets/allpass-delay-processor.js:61-63 | line i is zeroed with its cursor at 0; the others are kept |
| AllpassDelay.Processor.HandleMessage | worklets/allpass-delay-processor.js:56-68 | reset zeroes every line in place, keeping the lines and the maximum delay, configure resizes, anything else changes nothing: the lines, their buffer contents and write indices |
| AllpassDelay.Processor.Process | worklets/allpass-delay-processor.js:70-118 | with no output nothing changes, neither the lines nor their buffer contents and write indices; otherwise there is a line per output channel, each channel runs its line as `Block` says, and lines beyond the outputs are untouched |
| AllpassDelay.Processor.RunChannels | worklets/allpass-delay-processor.js:81-115 | each output channel runs its line; the lines beyond the outputs keep their state |
| AllpassDelay.Processor.RunChannel | worklets/allpass-delay-processor.js:82-114 | line ch runs into outputs[ch]; every other line and output is unchanged |
| SampleHold.MaxHz | worklets/sample-hold-processor.js:89 | min(20000, sampleRate/2): never above either |
| SampleHold.SanitizeFrequency | worklets/sample-hold-processor.js:85-93 | a non-finite value gives 1000, a value ≤ 0 gives 0, a positive value below 0.1 gives 0.1, one above the cap gives the cap, and anything between is kept |
| SampleHold.SanitizedFrequencyRange | worklets/sample-hold-processor.js:85-93 | the sanitised frequency is 0, 1000 or in [0.1, cap], and never negative |
| SampleHold.NotifyInterval | worklets/sample-hold-processor.js:19 | max(1, floor(sampleRate/30)): at least 1 and the floor of sampleRate/30 |
| SampleHold.Step | worklets/sample-hold-processor.js:54-76 | the held value changes only on a wrap and only to a finite source; a phase of 1 captures at once; a post happens exactly on a wrap with a finite source and an expired countdown, carries the held value and restarts the countdown; otherwise a positive countdown ticks down; soundness is kept |
| SampleHold.Increment | worklets/sample-hold-processor.js:50-52 | the phase increment is never negative and is 0 at a sanitised frequency of 0 |
| SampleHold.Run | worklets/sample-hold-processor.js:49-77 | a block writes one output per sample, and each output is the held value as updated for that sample |
| SampleHold.RunSound | worklets/sample-hold-processor.js:49-77 | over a block the phase stays in [0, 1] and the countdown in [0, interval] |
| SampleHold.ZeroFrequencyHolds | worklets/sample-hold-processor.js:52-55 | at frequency 0 a phase below 1 never wraps: nothing is captured or posted and every output is the held value |
| SampleHold.CountdownQuiet | worklets/sample-hold-processor.js:74-76 | a countdown of at least m keeps the next m samples silent and drops by exactly m |
| SampleHold.PostsSpaced | worklets/sample-hold-processor.js:58-76 | any n ≤ interval consecutive samples post at most once: posts are at least `interval` samples apart |
| SampleHold.RunBlock | worklets/sample-hold-processor.js:45-81 | the loop's state, posts and output are what `Run` gives |
| SampleHold.Sample | worklets/sample-hold-processor.js:54-76 | one pass of the loop body is one `Step` |
| SampleHold.Processor.constructor | worklets/sample-hold-processor.js:14-30 | held 0, phase 1, countdown 0, the notify interval from the sample rate, and 0 posted |
| SampleHold.Processor.HandleMessage | worklets/sample-hold-processor.js:20-28 | a `reset` message sets held 0, phase 1, countdown 0 and posts 0; anything else changes nothing |
| SampleHold.Processor.Process | worklets/sample-hold-processor.js:32-83 | with no output channel nothing changes; otherwise channel 0's samples, the new state and the posts are what `Run` gives |
| EnvelopeFollower.RateOr | js/worklets/envelope-follower-processor.js:47 | `sampleRate \|\| 48000` is positive and is the sample rate when that is positive |
| EnvelopeFollower.MixBetween | js/worklets/envelope-follower-processor.js:71-74 | for k in [0, 1], k·x + (1 − k)·y lies between x and y |
| EnvelopeFollower.FollowBetween | js/worklets/envelope-follower-processor.js:69-75 | the attack coefficient applies when |x| is above the envelope, the release coefficient otherwise, and the new envelope lies between the old one and |x| |
| EnvelopeFollower.CoefficientInUnit | js/worklets/envelope-follower-processor.js:62-63 | for positive times and rate, exp(−1000/(ms·rate)) lies in [0, 1] |
| EnvelopeFollower.Peak | js/worklets/envelope-follower-processor.js:66 | the largest |x| of the first n samples bounds each of them and is not negative |
| EnvelopeFollower.EnvelopeBounded | js/worklets/envelope-follower-processor.js:55-76 | over a block the envelope stays in [0, max(initial, peak |x|)] |
| EnvelopeFollower.Processor.constructor | js/worklets/envelope-follower-processor.js:27-30 | the envelope starts at 0 |
| EnvelopeFollower.Processor.Process | js/worklets/envelope-follower-processor.js:32-91 | with no input every output channel is zero-filled and the envelope is kept; otherwise the envelope follows channel 0 and every output channel gets envelope · gain at each frame |
| EnvelopeFollower.Render | js/worklets/envelope-follower-processor.js:55-88 | the loop ends at `Envelope` of the block, and every output channel holds envelope · gain at each frame it has room for, with later entries untouched |
| EnvelopeFollower.Frame | js/worklets/envelope-follower-processor.js:57-75 | one frame of the loop gives `Next`, the follower step with the attack coefficient on a rising input and the release coefficient otherwise, and reads the gain for that frame |
| EnvelopeFollower.ClearAll | js/worklets/envelope-follower-processor.js:38-42 | every output channel is zero-filled |
| EnvelopeFollower.WriteAll | js/worklets/envelope-follower-processor.js:81-87 | index i of every channel long enough gets v; nothing else changes |
| DspNode.Resolve | js/core/dsp-node.js:64-70 | an entry passes exactly when its node reports a finite number; its mode is the entry's own, else the parameter's strategy, else multiply |
| DspNode.ModEntries | js/core/dsp-node.js:63-71 | the filtered list is no longer than the modulator list |
| DspNode.ModEntriesAppend | js/core/dsp-node.js:63-71 | filtering a concatenation filters each part |
| DspNode.ModEntriesMembers | js/core/dsp-node.js:63-71 | the filtered list holds exactly the entries that resolve |
| DspNode.LastOverrideIsLast | js/core/dsp-node.js:78-79 | an override exists exactly when some entry has that mode, and its value is the last such entry's |
| DspNode.FoldAppend | js/core/dsp-node.js:77-85 | over appended lists a later override wins, sums add and products multiply |
| DspNode.SumProdCommute | js/core/dsp-node.js:80-84 | the sum and product do not depend on the order of the modulators |
| DspNode.EffectiveCases | js/core/dsp-node.js:72-92 | with an override the effective value is the last override; otherwise, with modulators, it is base·product + sum, base 0 for a non-number |
| DspNode.Fold | js/core/dsp-node.js:74-85 | the fold loop yields the last override, the sum of adds and the product of the rest |
| DspNode.Defaulted | js/core/dsp-node.js:106-115 | after the defaults the strategy is truthy (multiply when missing), a missing default strategy becomes it, and the value and caption are kept |
| DspNode.DefaultedAll | js/core/dsp-node.js:106-115 | every parameter is defaulted in place |
| DspNode.OverridesExact | js/core/dsp-node.js:142-149 | the records name exactly the parameters whose strategy differs from its default, in index order, each once |
| DspNode.ExtraDataNull | js/core/dsp-node.js:140-151 | the extra data is null exactly when no strategy differs from its default |
| DspNode.FreshParamsHaveNoExtraData | js/core/dsp-node.js:103-115 | right after `initializeParams` the extra data is null |
| DspNode.IndexOf | js/core/dsp-node.js:159-160 | a saved index names a parameter only when it is an integral number within range |
| DspNode.ApplyRecord | js/core/dsp-node.js:158-163 | one record keeps the number of parameters |
| DspNode.ApplyStrategyRecord | js/core/dsp-node.js:159-162 | applying a record for index i sets parameter i's strategy and nothing else |
| DspNode.Restored | js/core/dsp-node.js:153-164 | restoring keeps the number of parameters |
| DspNode.ApplyOverridesAt | js/core/dsp-node.js:153-164 | the saved records change only the strategies of the parameters they name |
| DspNode.ApplyOverridesStep | js/core/dsp-node.js:153-164 | the records of one more parameter apply its strategy when it differs and change nothing otherwise |
| DspNode.ExtraDataRoundTrip | js/core/dsp-node.js:140-164 | restoring the saved record onto parameters with the same default strategies reproduces every strategy in force and changes nothing else |
| DspNode.SettledAll | js/core/dsp-node.js:116 | every parameter is settled by its own update |
| DspNode.Plan | js/core/dsp-node.js:116 | the settled parameters and the automation flags, index by index |
| DspNode.CallsExact | js/core/dsp-node.js:93-94 | every parameter with a callback is called exactly once, with its settled value, in index order, and no other parameter is |
| DspNode.Node.constructor | js/core/dsp-node.js:5-22 | a node with its identity and parameters, no parameter inputs, no modulators and no calls |
| DspNode.Node.SetupParameterIO | js/core/dsp-node.js:37-48 | one parameter input per parameter, named after its caption, with paramIndex = idx; existing modulator lists are kept and missing ones become empty |
| DspNode.Node.UpdateParam | js/core/dsp-node.js:59-96 | the parameter's effective value becomes the fold of its valid modulators (its own value when there are none), and one `onChange` call is recorded with fromAutomation iff a modulator passed; nothing happens without a callback |
| DspNode.Node.RemoveParamModulator | js/core/dsp-node.js:98-101 | the list for that index loses exactly the entries for the node and keeps the others in order; the other lists are untouched |
| DspNode.Node.InitializeParams | js/core/dsp-node.js:103-117 | defaults first, then every parameter updated in turn with one call each, and parameter IO set up |
| DspNode.Node.ApplyDefaults | js/core/dsp-node.js:106-115 | every parameter gets its defaults |
| DspNode.Node.UpdateAll | js/core/dsp-node.js:116 | every parameter is settled and the calls are made in index order |
| DspNode.Node.UpdateNext | js/core/dsp-node.js:116 | one index is settled and its call, if any, is appended |
| DspNode.Node.GetExtraData | js/core/dsp-node.js:140-151 | the result is the strategy record of the parameters, as `ExtraDataRoundTrip` and `ExtraDataNull` characterise it |
| DspNode.Node.RestoreExtraData | js/core/dsp-node.js:153-164 | the parameters become `Restored` of the data; inputs, modulators and calls are unchanged |
| Subscribers.Removed | js/nodes/samplehold-node.js:245-247 | the filtered list is never longer |
| Subscribers.RemovedExactly | js/nodes/samplehold-node.js:245-247 | the matching (node, paramIndex) pair is gone, and every other pair occurs as often as before |
| Subscribers.RemovedKeepsOrder | js/nodes/samplehold-node.js:245-247 | removal distributes over concatenation, so the others keep their order |
| Subscribers.RemovedIdempotent | js/nodes/samplehold-node.js:245-247 | removing the same pair twice is removing it once |
| Subscribers.AddThenRemove | js/nodes/samplehold-node.js:241-247 | subscribing and then unsubscribing a pair leaves the list without that pair |
| SampleHoldNode.SanitizeFrequency | js/nodes/samplehold-node.js:376-390 | 1000 for anything that is not a finite number, 0 for a value ≤ 0, otherwise the value clamped to [0.1, 20000] |
| SampleHoldNode.SanitizeFrequencyIdempotent | js/nodes/samplehold-node.js:376-390 | a sanitised frequency comes back unchanged |
| SampleHoldNode.SanitizersAgree | js/nodes/samplehold-node.js:376-390 | at a sample rate of 40 kHz or more the node's sanitiser and the worklet's agree on every number |
| SampleHoldNode.ParamFrequency | js/nodes/samplehold-node.js:201 | the parameter stores the frequency, or 0.1 in place of 0 |
| SampleHoldNode.Node.constructor | js/nodes/samplehold-node.js:4-20 | frequency and effective frequency 1000, nothing held, no subscribers |
| SampleHoldNode.Node.SetFrequency | js/nodes/samplehold-node.js:173-207 | on automation only the effective frequency and effectiveValue move, and not within 1e-6; a manual change within 1e-6 sets only the effective values; otherwise frequency, effective frequency and the parameter's value move together |
| SampleHoldNode.Node.UpdateHeldValue | js/nodes/samplehold-node.js:290-295 | a finite value at least 1e-6 from the held one replaces it and each subscriber is updated once, in order; anything else changes nothing |
| SampleHoldNode.Node.HandleWorkletMessage | js/nodes/samplehold-node.js:222-230 | a number or an object whose `value` is a number updates the held value; anything else is ignored |
| SampleHoldNode.Node.GetValue | js/nodes/samplehold-node.js:237-239 | returns the held value |
| SampleHoldNode.Node.AddSubscriber | js/nodes/samplehold-node.js:241-243 | the pair is appended and nothing else changes |
| SampleHoldNode.Node.RemoveSubscriber | js/nodes/samplehold-node.js:245-247 | the list loses exactly the matching pairs; nothing else changes |
| SampleHoldNode.Node.OnRemoved | js/nodes/samplehold-node.js:257-288 | held value 0, no subscribers, the base title back |
| PitchShifterNode.EstimateLatency | js/nodes/pitch-shifter-node.js:92-96 | the estimate never exceeds the frame size, and is below it for any non-empty frame |
| PitchShifterNode.EstimateMatchesWorklet | js/nodes/pitch-shifter-node.js:92-96 | for a power-of-two frame and an overlap dividing it, the estimate equals the worklet's own latency, fftSize − fftSize / overlap |
| PitchShifterNode.DefaultOverlapLatency | js/nodes/pitch-shifter-node.js:26-27 | at the default overlap 4 every frame of at least 4 samples gives a latency of the frame less a quarter of it; the default 2048 gives 1536 samples |
| PitchShifterNode.ClampMix | js/nodes/pitch-shifter-node.js:108-111 | NaN exactly when the input is NaN; otherwise a number in [0, 1] that is the input when the input already lies there |
| PitchShifterNode.GainsCrossfade | js/nodes/pitch-shifter-node.js:113-124 | for a non-NaN mix the dry gain 1 − mix and the wet gain mix are in [0, 1] and sum to 1 |
| PitchShifterNode.PitchRatio | js/nodes/pitch-shifter-node.js:126-130 | 2^((semitones + cents/100) / 12) clamped to [0.25, 4], with a NaN power passing through |
| PitchShifterNode.RatioWithinWorkletRange | js/nodes/pitch-shifter-node.js:126-130 | for a non-NaN power the ratio is finite and within the worklet's [0.25, 4] |
| PitchShifterNode.DryDelaySeconds | js/nodes/pitch-shifter-node.js:147-153 | the delay is in [0, 0.9]: the latency in seconds when it lies there, 0.9 above, 0 for no latency |
| PitchShifterNode.NumberOrZero | js/nodes/pitch-shifter-node.js:99 | a number is kept and anything else becomes 0 |
| PitchShifterNode.Node.constructor | js/nodes/pitch-shifter-node.js:4-88 | ratio 1, mix 1, the estimated latency for the defaults, the dry delay compensating it, dry gain 0 and wet gain 1 |
| PitchShifterNode.Node.SetSemitones | js/nodes/pitch-shifter-node.js:98-101 | semitones become the number or 0 and the ratio is recomputed; nothing else changes |
| PitchShifterNode.Node.SetFine | js/nodes/pitch-shifter-node.js:103-106 | cents become the number or 0 and the ratio is recomputed; nothing else changes |
| PitchShifterNode.Node.SetMix | js/nodes/pitch-shifter-node.js:108-124 | the mix is clamped and the dry and wet gains become 1 − mix and mix, summing to 1 for a non-NaN value |
| PitchShifterNode.Node.HandleWorkletMessage | js/nodes/pitch-shifter-node.js:245-254 | a latency report with a finite sample count sets the latency and the dry delay follows it; any other message changes nothing |
| SynthNode.FindPlaying | js/nodes/synth-node.js:82-83 | none exactly when no voice in use plays the note; otherwise the first voice that does |
| SynthNode.FindIdle | js/nodes/synth-node.js:85 | none exactly when every voice is in use; otherwise the first idle voice |
| SynthNode.Oldest | js/nodes/synth-node.js:87-88 | a voice whose lastUsed is the minimum, the earliest one on a tie |
| SynthNode.FreeVoiceChoice | js/nodes/synth-node.js:79-91 | the chosen voice is the first one playing the note if any; else the first idle one if any; else the first least recently used one |
| SynthNode.NoteOn | js/nodes/synth-node.js:93-118 | note-on keeps the number of voices |
| SynthNode.NoteOnKeepsNotesDistinct | js/nodes/synth-node.js:93-118 | if no two sounding voices shared a note before note-on, none do after it, and some voice now plays the note |
| SynthNode.Synth.constructor | js/nodes/synth-node.js:11-31 | eight idle voices with no note, waveform index 2 (sawtooth), release 0.3 s |
| SynthNode.Synth.SetWaveform | js/nodes/synth-node.js:72-77 | every voice gets the chosen waveform and keeps everything else |
| SynthNode.Synth.OnWaveformChange | js/nodes/synth-node.js:42-45 | the index is the slider value rounded and clamped to [0, 3], and every voice gets that waveform |
| SynthNode.Synth.FindFreeVoiceIndex | js/nodes/synth-node.js:79-91 | returns the voice the choice function names |
| SynthNode.Synth.OnReleaseChange | js/nodes/synth-node.js:62-66 | the release time becomes the slider value, so the next note-off ends its release that much later; the voices keep their state |
| SynthNode.Synth.MidiNoteOn | js/nodes/synth-node.js:93-118 | the voices become note-on's result, so the sounding notes stay distinct |
| SynthNode.Synth.MidiNoteOff | js/nodes/synth-node.js:122-136 | the voice playing the note, if any, only gets a release end of now + release; with none the voices are unchanged |
| GraphApp.ClampOctave | js/app.js:332-335 | the offset stays in [−4, 4], is kept when already there, and saturates at either end |
| GraphApp.NextMode | js/app.js:795-799 | the next mode is always multiply, add or override |
| GraphApp.NextModeCycle | js/app.js:795-799 | multiply → add → override → multiply, so three steps return a known mode; a missing mode counts as multiply (giving add), any other unknown mode gives multiply |
| GraphApp.WithAudioKeepsDistinct | js/app.js:667-691 | an audio connect lists the new connection, keeps every earlier one in place, adds at most one, and never lists a connection twice |
| GraphApp.LinkedOnce | js/app.js:646-653 | a param connect lists its source exactly once, keeps the earlier entries in place, and appends the source with its mode when it was not listed |
| GraphApp.Padded | js/app.js:648 | a missing modulator list is created empty; existing lists are kept |
| GraphApp.DefaultMode | js/app.js:651-653 | the override when truthy, else the parameter's strategy, else its default strategy, else multiply; always truthy |
| GraphApp.FirstWith | js/app.js:803 | the first modulator entry naming the node, or none when no entry does |
| GraphApp.SetFirstMode | js/app.js:801-805 | only the entry naming the node changes mode; every other entry is kept |
| GraphApp.PointerNorm | js/app.js:401-402 | the pointer's position along the slider lies in [0, 1] |
| GraphApp.SliderInRange | js/app.js:404-419 | with finite ordered bounds the slider's value lies within them, unless it is NaN |
| GraphApp.SliderLinear | js/app.js:409-419 | a linear slider without a step maps [0, 1] straight onto [min, max] |
| GraphApp.SignedPowSpans | js/app.js:340-350 | both spans are non-negative; a finite non-positive min gives −min below zero and a finite non-negative max gives max above it |
| GraphApp.SignedPowPower | js/app.js:352-356 | the power is positive: the parameter's own when it is a finite positive number, otherwise 3 |
| GraphApp.App.constructor | js/app.js:117-135 | no nodes, no selection, no connections, no drag, octave offset 0 |
| GraphApp.App.AdjustOctave | js/app.js:332-338 | the offset becomes the clamped sum; nothing else changes |
| GraphApp.App.ConnectAudio | js/app.js:667-691 | the connection list becomes the audio connect's result; nothing else changes |
| GraphApp.App.ConnectParam | js/app.js:644-662 | an unknown param port changes nothing; otherwise the modulator list is padded and linked; a new link adds the connection, settles the parameter and logs its change, and an existing one leaves both alone |
| GraphApp.App.CycleParamConnectionMode | js/app.js:795-808 | a param connection gets the next mode, the first matching modulator entry takes it, and the target parameter is settled again; anything else changes nothing |
| GraphApp.App.DeleteNode | js/app.js:612-642 | the output node stays; any other node leaves the node list, the selection and the drag, and the connections split exactly into those kept (none touching the node) and those returned as removed |
| GraphApp.App.DropFromDrag | js/app.js:620-631 | the drag loses the node; an empty drag ends; a removed anchor passes to the first remaining entry |
| GraphApp.App.BeginDragSelection | js/app.js:741-769 | an unselected anchor becomes the only selection, the drag starts on the selection, and the selected nodes move to the end of the drawing order, keeping their relative order, as a permutation |
| GraphApp.App.SetParamValueFromPointer | js/app.js:394-427 | with a slider and positive width, a value at least 1e-6 from the old one is stored and the parameter settled and logged; otherwise nothing changes |
| GraphApp.DragOrder | js/app.js:759-768 | the unselected nodes in order, then the selected ones in order: a permutation with no duplicates |
| GraphApp.SpliceOut | js/app.js:764-767 | splicing out each ordered node leaves exactly the nodes not in that list |
| GraphApp.PushAll | js/app.js:768 | pushing appends the ordered nodes in order |
| GraphApp.SpliceStep | js/app.js:764-767 | splicing one more node out filters that node from what is left |
| GraphApp.OrderedSelection | js/app.js:759-762 | the sorted selection holds each drawn selected node once, in increasing drawing position |
| GraphApp.FilterKeepsPositions | js/app.js:759-762 | filtering a duplicate-free list keeps the relative positions |
| GraphApp.KeptAreUnselected | js/app.js:764-767 | the nodes left after splicing are the unselected ones |
| GraphApp.AppendDistinct | js/app.js:759-768 | moving the selected nodes to the end keeps the list free of duplicates |
| ChaosNode.NormalizeSeed | js/nodes/chaos-node.js:264 | the seed's fractional part s − ⌊s⌋, in [0, 1) for negative seeds too |
| ChaosNode.NormalizeIsFraction | js/nodes/chaos-node.js:104 | `((s % 1) + 1) % 1` with JavaScript's truncating `%` equals s − ⌊s⌋ |
| ChaosNode.InitialState | js/nodes/chaos-node.js:265 | the start state lies in [1, 2^31 − 2] |
| ChaosNode.StepStaysInRange | js/nodes/chaos-node.js:267 | the Park–Miller step keeps the state in [1, 2^31 − 2], so it never reaches 0 |
| ChaosNode.StateAfter | js/nodes/chaos-node.js:266-269 | every state the generator reaches lies in [1, 2^31 − 2] |
| ChaosNode.DrawAt | js/nodes/chaos-node.js:268 | every draw is strictly between 0 and 1 |
| ChaosNode.Random.constructor | js/nodes/chaos-node.js:262-265 | the state starts from the normalised seed, or from the fallback draw when the seed is not finite |
| ChaosNode.Random.Next | js/nodes/chaos-node.js:266-269 | one call advances the state by one step and returns it over the modulus, strictly between 0 and 1 |
| ChaosNode.FiniteOr | js/nodes/chaos-node.js:64 | a finite number is taken; anything else keeps the current value |
| ChaosNode.BaseRateAfter | js/nodes/chaos-node.js:63-65 | the new rate is at least 0.02, and is the finite value (or the old rate) when that is at least 0.02 |
| ChaosNode.OctavesAfter | js/nodes/chaos-node.js:75-77 | the new count is a whole number at least 1, the rounded value when that is at least 1 |
| ChaosNode.DepthAfter | js/nodes/chaos-node.js:87-89 | the new depth lies in [0, 1] and is the value when it lies there |
| ChaosNode.SeedAfter | js/nodes/chaos-node.js:102-105 | the new seed lies in [0, 1) and is the value when it lies there |
| ChaosNode.Octave | js/nodes/chaos-node.js:128 | 2^i is at least 1 |
| ChaosNode.ChaosVoiceInOctave | js/nodes/chaos-node.js:127-131 | with draws in (0, 1), voice i's frequency is strictly between base·2^i and base·2^(i+1), and its phase strictly between 0 and 2π |
| ChaosNode.VoiceCount | js/nodes/chaos-node.js:120 | at least one voice, and exactly octaveCount when that is at least 1 |
| ChaosNode.SinSumBounded | js/nodes/chaos-node.js:210-217 | with sines in [−1, 1] the sum over n voices lies in [−n, n] |
| ChaosNode.ValueWithinDepth | js/nodes/chaos-node.js:210-217 | the reported value lies in [−depth, depth] |
| ChaosNode.Advanced | js/nodes/chaos-node.js:201-205 | a frame keeps the number of voices |
| ChaosNode.AdvancedPhasesInTurn | js/nodes/chaos-node.js:203 | with non-negative phases, frequencies and frame time, every phase stays in [0, 2π) and every frequency is kept |
| ChaosNode.AdvanceStates | js/nodes/chaos-node.js:199-205 | the loop yields the advanced voices and the sum of their sines |
| ChaosNode.TickValueIsMean | js/nodes/chaos-node.js:200-206 | `sum · (1 / n) · depth` is the value `computeValueFromStates` gives for the same voices |
| ChaosNode.SetParamValue | js/nodes/chaos-node.js:66-69 | the parameter list keeps its length |
| ChaosNode.SetParamEffective | js/nodes/chaos-node.js:96-98 | the parameter list keeps its length |
| ChaosNode.AppendVoice | js/nodes/chaos-node.js:127-149 | appending voice i from draws 2i and 2i + 1 keeps every voice built from its own draws and inside its own octave |
| ChaosNode.BuildVoices | js/nodes/chaos-node.js:120-152 | count voices, voice i built from draws 2i and 2i + 1 of a fresh generator, each inside its octave |
| ChaosNode.Node.constructor | js/nodes/chaos-node.js:4-19 | rate 0.2, four octaves, depth 1, the drawn seed, no voices, value 0, no subscribers |
| ChaosNode.Node.UpdateCurrentValue | js/nodes/chaos-node.js:219-224 | a finite value at least 1e-4 from the current one replaces it and every subscriber is updated once; anything else changes nothing |
| ChaosNode.Node.RebuildChaosVoices | js/nodes/chaos-node.js:115-154 | the voices are rebuilt from the seed in their octaves, and the value moves to the voices' mean sine when that differs by 1e-4 or more |
| ChaosNode.Node.InitAudio | js/nodes/chaos-node.js:21-61 | the graph exists and the voices are built from the seed |
| ChaosNode.Node.Tick | js/nodes/chaos-node.js:196-208 | with no voices nothing changes; otherwise every phase advances one frame and the mean sine, scaled by the depth, is reported when it moves by 1e-4 or more |
| ChaosNode.Node.SetBaseRate | js/nodes/chaos-node.js:63-73 | the rate and parameter 0 take the sanitised value; live voices are rebuilt, one per octave, each in its octave above max(0.002, rate) and drawn from a fresh generator seeded with the seed, and the mean of their sines, scaled by the depth, is reported when it moved by at least 1e-4 |
| ChaosNode.Node.SetOctaves | js/nodes/chaos-node.js:75-85 | the count and parameter 1 take the sanitised value; live voices are rebuilt, one per octave, each in its octave and drawn from a fresh generator seeded with the seed, and their scaled mean is reported when it moved by at least 1e-4 |
| ChaosNode.Node.SetDepth | js/nodes/chaos-node.js:87-100 | the depth and parameter 2's effective value take the clamped value, and the reported value is recomputed from the unchanged voices |
| ChaosNode.Node.SetSeed | js/nodes/chaos-node.js:102-113 | the seed and parameter 3 take its fractional part; live voices are rebuilt from a generator seeded with it, one per octave, and their scaled mean is reported when it moved by at least 1e-4; without the graph nothing else changes |
| ChaosNode.Node.GetValue | js/nodes/chaos-node.js:226-228 | returns the current value |
| ChaosNode.Node.AddSubscriber | js/nodes/chaos-node.js:230-232 | the pair is appended |
| ChaosNode.Node.RemoveSubscriber | js/nodes/chaos-node.js:234-236 | exactly the matching pairs are removed |
| ChaosNode.Node.OnRemoved | js/nodes/chaos-node.js:246-260 | no voices, no graph, no subscribers, value 0 |
| LfoNode.EffectiveRate | js/nodes/lfo-node.js:105 | the rate is at least 0.0001, and the frequency itself when it is at least that |
| LfoNode.Period | js/nodes/lfo-node.js:88 | the random mode's hold time is positive |
| LfoNode.NextPhaseInTurn | js/nodes/lfo-node.js:105 | a phase in [0, 1) stays in [0, 1) after a frame of non-negative length |
| LfoNode.ShapeBounded | js/nodes/lfo-node.js:108-126 | every waveform, the default branch included, stays within [−1, 1] over a cycle when the sine does |
| LfoNode.TriangleContinuous | js/nodes/lfo-node.js:112-116 | the triangle's three pieces meet at 0.25 (value 1) and 0.75 (value −1), and the cycle starts and ends at 0 |
| LfoNode.SawAndSquareRange | js/nodes/lfo-node.js:117-122 | the sawtooth lies in [−1, 1); the square is 1 exactly on the first half of the cycle and −1 on the second |
| LfoNode.LevelWithinDepth | js/nodes/lfo-node.js:127 | the level `center + depth · shape` stays within depth of the centre |
| LfoNode.WaveformIndex | js/nodes/lfo-node.js:175 | the index names one of the five waveforms, and is the rounded value when that names one |
| LfoNode.PeriodsNext | js/nodes/lfo-node.js:91-92 | one more period adds one period of time |
| LfoNode.PeriodsDrop | js/nodes/lfo-node.js:91-92 | taking one period off a timer holding at least one lowers the number of whole periods by exactly one, so the loop ends |
| LfoNode.Node.constructor | js/nodes/lfo-node.js:4-25 | phase 0, value 1, rate 1, depth 0.5, centre 1, sine waveform, not in the random mode, no subscribers, no graph |
| LfoNode.Node.InitAudio | js/nodes/lfo-node.js:27-82 | the graph starts at the current rate, depth and centre, and the value becomes the centre |
| LfoNode.Node.UpdateCurrentValue | js/nodes/lfo-node.js:219-223 | a value at least 1e-4 from the current one replaces it and every subscriber is updated once; afterwards the value is within 1e-4 of the request |
| LfoNode.Node.UpdateDepthGain | js/nodes/lfo-node.js:201-207 | with a graph, the amplitude targets 0 in the random mode and the depth otherwise |
| LfoNode.Node.TriggerRandomSample | js/nodes/lfo-node.js:209-217 | the held level becomes draw·2 − 1, the offset targets centre + depth·level, and the value is reported |
| LfoNode.Node.SetRate | js/nodes/lfo-node.js:55-63 | the frequency and the oscillator's target take the value; in the random mode the timer restarts |
| LfoNode.Node.SetDepth | js/nodes/lfo-node.js:151-162 | the depth changes, the amplitude follows it, and in the random mode the held level is re-reported at the new depth |
| LfoNode.Node.SetCenter | js/nodes/lfo-node.js:164-171 | the centre changes; with a graph the offset and the value move to it, plus the held level in the random mode |
| LfoNode.Node.SetWaveform | js/nodes/lfo-node.js:173-199 | the index is the rounded, clamped value, the random mode is on exactly for index 4, which restarts the timer and draws a sample; any other waveform reports the centre |
| LfoNode.Node.ApplyMode | js/nodes/lfo-node.js:181-198 | in the random mode the depth gain is silenced, the timer restarts and the drawn level is reported; otherwise the depth gain follows the depth and the centre is reported; validity is kept |
| LfoNode.Node.Tick | js/nodes/lfo-node.js:84-129 | before initAudio nothing changes, the offset target included; in the random mode the phase is kept and the random branch's outcome (RandomTicked) holds; otherwise the phase advances, the waveform's level is reported when it moved by at least 1e-4, and the timer, sample and offset target are kept |
| LfoNode.Node.TickRandom | js/nodes/lfo-node.js:87-100 | RandomTicked: the timer ends below one period after subtracting the periods sampled; the last draw sets the held level; the value and the notifications are those of reporting every drawn level in turn, or the held level once when nothing was drawn; the offset target follows the last drawn level while the graph exists and is kept otherwise |
| LfoNode.Node.SampleDue | js/nodes/lfo-node.js:90-94 | the loop draws one sample per whole period in the timer, leaves less than one period, reports every drawn level in turn and sets the offset target to the last one while the graph exists |
| LfoNode.Report | js/nodes/lfo-node.js:219-223 | one report never withdraws a notification and leaves the value within 1e-4 of the target |
| LfoNode.ReportDrawsSettles | js/nodes/lfo-node.js:90-95 | reporting n samples keeps every earlier notification, adds each subscriber at most once per sample, and ends within 1e-4 of the last sample's level |
| LfoNode.Node.GetValue | js/nodes/lfo-node.js:131-133 | returns the current value |
| LfoNode.Node.AddSubscriber | js/nodes/lfo-node.js:135-137 | the pair is appended |
| LfoNode.Node.RemoveSubscriber | js/nodes/lfo-node.js:139-141 | exactly the matching pairs are removed |
| LfoNode.Node.OnRemoved | js/nodes/lfo-node.js:225-245 | the audio nodes are gone |
| MultiplyNode.SignalFrom | js/nodes/multiply-node.js:34-37 | a finite input is taken, anything else becomes 0 |
| MultiplyNode.SafeFactor | js/nodes/multiply-node.js:42-46 | the factor lies in [−10000, 10000]: the finite value clamped there, 0 for anything else |
| MultiplyNode.ProductBounded | js/nodes/multiply-node.js:63-66 | the product is at most 10000 times the input's magnitude |
| MultiplyNode.OutputWithinLimit | js/nodes/multiply-node.js:63-66 | with an input in [−1, 1] the output lies in [−10000, 10000] |
| MultiplyNode.IdentityAndZero | js/nodes/multiply-node.js:42-46 | a factor of 1 passes the input through; a factor of 0 or NaN silences it |
| MultiplyNode.Node.constructor | js/nodes/multiply-node.js:4-15 | input 0, factor 1, value 0, no subscribers, no graph |
| MultiplyNode.Node.UpdateOutput | js/nodes/multiply-node.js:63-79 | the product becomes the value and the offset's target; subscribers are updated once each only when it moved by more than 1e-6 |
| MultiplyNode.Node.InitAudio | js/nodes/multiply-node.js:17-61 | the graph exists and the first product is pushed |
| MultiplyNode.Node.OnInput | js/nodes/multiply-node.js:34-37 | the input takes the sanitised signal and the product is pushed |
| MultiplyNode.Node.OnFactor | js/nodes/multiply-node.js:42-54 | the factor is sanitised, parameter 1's effective value (and its value unless the change is automation) takes it, and the product is pushed |
| MultiplyNode.Node.GetValue | js/nodes/multiply-node.js:81-83 | returns the current value |
| MultiplyNode.Node.AddSubscriber | js/nodes/multiply-node.js:85-87 | the pair is appended |
| MultiplyNode.Node.RemoveSubscriber | js/nodes/multiply-node.js:89-91 | exactly the matching pairs are removed |
| MultiplyNode.Node.OnRemoved | js/nodes/multiply-node.js:101-114 | no graph, no subscribers, value 0 |
| ValueNode.SampleRate | js/nodes/value-node.js:48 | the host's rate when it is truthy, 44100 otherwise |
| ValueNode.ApplyValueTransform | js/nodes/value-node.js:44-52 | a value passes through unchanged unless the transform's type is 'samplesToMs' |
| ValueNode.SamplesToMsRoundTrip | js/nodes/value-node.js:47-50 | with a finite positive rate the result is value / rate · 1000 ms, and converting back gives the sample count |
| ValueNode.FallbackRateConversion | js/nodes/value-node.js:48-49 | without a truthy host rate every finite value v converts to v / 44100 · 1000 ms, so 44100 samples are 1000 ms |
| ValueNode.GetValue | js/nodes/value-node.js:34-42 | 1 without a parameter; otherwise the effective value if a number, else the value if a number, else 1, through the transform |
| ValueNode.NewTransform | js/nodes/value-node.js:54-61 | a falsy transform clears it, a string becomes `{type: name}`, an object is copied |
| ValueNode.NamedTransform | js/nodes/value-node.js:54-61 | a transform set by name converts samples exactly when the name is 'samplesToMs' |
| ValueNode.Overrides | js/nodes/value-node.js:85-92 | each slider setting is saved exactly when it differs from the default: label 'Value', min 0, max 2, an undefined step, a linear or falsy scale |
| ValueNode.ExtraData | js/nodes/value-node.js:81-99 | the record is null exactly when there are no strategies, the title is 'Value', no transform is set and no slider setting differs |
| ValueNode.Assign | js/nodes/value-node.js:108 | a non-object leaves the parameter unchanged |
| ValueNode.Restore | js/nodes/value-node.js:101-114 | the parameters keep their number; falsy data changes nothing |
| ValueNode.AssignOverrides | js/nodes/value-node.js:85-92 | applying a parameter's saved overrides to a fresh slider reproduces its label, range, step and scale and keeps the strategy |
| ValueNode.RecordsKeepSliders | js/core/dsp-node.js:158-163 | applying the saved strategy records changes only the modulation strategies |
| ValueNode.RestoredKeepsSliders | js/core/dsp-node.js:153-164 | DSPNode's restore changes only the modulation strategies |
| ValueNode.ExtraDataFields | js/nodes/value-node.js:81-99 | the record's title, transform, strategies and overrides keys each hold what was saved, or are absent |
| ValueNode.TitleField | js/nodes/value-node.js:81-99 | the record holds a title exactly when it is not the default, and then the node's title |
| ValueNode.TransformField | js/nodes/value-node.js:81-99 | the record holds a transform exactly when the node's is truthy, and then a copy of it |
| ValueNode.StrategiesField | js/nodes/value-node.js:81-99 | the record's strategies key is DSPNode's |
| ValueNode.OverridesField | js/nodes/value-node.js:81-99 | the record holds slider overrides exactly when the first parameter differs from the slider defaults, and then those overrides under key "0" |
| ValueNode.StrategiesSurvive | js/nodes/value-node.js:81-114 | the Value node's extra keys do not disturb DSPNode's strategy round trip |
| ValueNode.SliderSurvives | js/nodes/value-node.js:101-110 | restoring the overrides reproduces the first slider's settings and keeps every strategy |
| ValueNode.ExtraDataRoundTrip | js/nodes/value-node.js:81-114 | saving a node and restoring the record onto a fresh one reproduces the title, the transform, the first slider's settings and every strategy, when the title and scale are truthy |
| ValueNode.Node.constructor | js/nodes/value-node.js:4-11 | title 'Value', no transform, no subscribers, no graph |
| ValueNode.Node.InitAudio | js/nodes/value-node.js:13-32 | the constant source exists; the parameters become the one Value slider, settled by `initializeParams`; its handler runs once, so the offset targets the settled value (1 without modulators on it) and every subscriber is updated once |
| ValueNode.Node.OnValueChange | js/nodes/value-node.js:25-28 | the offset follows the value and every subscriber is updated once |
| ValueNode.Node.GetValueNow | js/nodes/value-node.js:34-42 | returns the value of `getValue` for the current parameters and transform |
| ValueNode.Node.SetValueTransform | js/nodes/value-node.js:54-63 | the transform is set as above and every subscriber is updated once |
| ValueNode.Node.GetExtraData | js/nodes/value-node.js:81-99 | returns the saved record |
| ValueNode.Node.RestoreExtraData | js/nodes/value-node.js:101-114 | the parameters, title and transform become the restored state |
| ValueNode.Node.AddSubscriber | js/nodes/value-node.js:65-67 | the pair is appended |
| ValueNode.Node.RemoveSubscriber | js/nodes/value-node.js:69-71 | exactly the matching pairs are removed |
| ValueNode.Node.OnRemoved | js/nodes/value-node.js:116-127 | the constant source is gone |
| DistortionNode.Amount | js/nodes/distortion-node.js:63-66 | the curve amount is non-negative, 100 times the drive when that is non-negative |
| DistortionNode.XRange | js/nodes/distortion-node.js:91-92 | the sample points run from −1 up to but not including 1, with 0 at the middle entry |
| DistortionNode.ShaperBounded | js/nodes/distortion-node.js:93 | for inputs in [−1, 1] the curve stays in [−1, 1], below 1 for inputs below 1, and keeps the input's sign |
| DistortionNode.ShaperBelowOne | js/nodes/distortion-node.js:93 | the transfer function stays below 1 for every input below 1 |
| DistortionNode.ShaperOdd | js/nodes/distortion-node.js:92 | the transfer function is odd |
| DistortionNode.ShaperFixedPoints | js/nodes/distortion-node.js:92 | −1, 0 and 1 are fixed points, and drive 0 is the identity |
| DistortionNode.CurveSymmetry | js/nodes/distortion-node.js:87-96 | entry 44100 − i is the negation of entry i, entry 0 is −1, the middle entry 0, and every entry lies in [−1, 1) |
| DistortionNode.MakeDistortionCurve | js/nodes/distortion-node.js:87-96 | a fresh 44100-entry table whose every entry is the transfer function at its sample point |
| DistortionNode.Node.constructor | js/nodes/distortion-node.js:4-18 | drive 0.5, pre-gain 1, mix 0.75, no graph |
| DistortionNode.Node.InitAudio | js/nodes/distortion-node.js:20-61 | the graph and the wave shaper exist; replaying the parameter handlers installs the curve for the current drive, sets the pre-gain target to the pre-gain and splits the mix into dry 1 − mix and wet mix, the values themselves unchanged |
| DistortionNode.Node.SetDrive | js/nodes/distortion-node.js:63-68 | the drive is stored and, with a wave shaper, a fresh curve for the drive's amount installed |
| DistortionNode.Node.SetPreGain | js/nodes/distortion-node.js:70-76 | the pre-gain is stored and, with a graph, targeted |
| DistortionNode.Node.SetMix | js/nodes/distortion-node.js:78-85 | the mix is stored and, with a graph, the dry gain targets 1 − mix and the wet gain mix, summing to 1 |
| DistortionNode.Node.OnRemoved | js/nodes/distortion-node.js:98-103 | the wave shaper is gone |
| AbsoluteNode.AbsCurveShape | js/nodes/absolute-node.js:36-44 | every entry lies in [0, 1], both ends are 1, and the table is symmetric |
| AbsoluteNode.AbsCurveMinimum | js/nodes/absolute-node.js:36-44 | no entry is 0: the smallest are the two middle ones, 1/65535 each |
| AbsoluteNode.MakeAbsCurve | js/nodes/absolute-node.js:36-44 | a fresh 65536-entry table whose every entry is \|x\| at its sample point |
| AbsoluteNode.Node.InitAudio | js/nodes/absolute-node.js:13-34 | the wave shaper exists and holds the absolute-value curve |
| AbsoluteNode.Node.SetScale | js/nodes/absolute-node.js:27-31 | the output gain targets the scale |
| AbsoluteNode.Node.OnRemoved | js/nodes/absolute-node.js:46-51 | the wave shaper is gone |
| AbsoluteNode.Node.constructor | js/nodes/absolute-node.js:4-11 | no wave shaper before `initAudio` |
| SynthNode.FindFreeVoice | js/nodes/synth-node.js:79-91 | the chosen voice is one of the voices |
| PitchShiftConfig.AsWrittenPowerClimbs | worklets/hq-pitch-shifter.js:306-309 | the first 21 shifts double 512 up to 2^30 without wrapping |
| PitchShiftConfig.AsWrittenPowerWraps | worklets/hq-pitch-shifter.js:306-309 | the 22nd shift moves 2^30 into the sign bit, giving −2^31 |
| PitchShiftConfig.AsWrittenPowerStaysZero | worklets/hq-pitch-shifter.js:306-309 | from the 23rd shift on the value is 0 for ever |
| PitchShiftRing.Ring.Append | worklets/hq-pitch-shifter.js:182-184 | storing into a ring with room appends the sample to its contents |
| PitchShiftChannel.NewRings | worklets/hq-pitch-shifter.js:113-121 | two distinct, empty rings of the requested capacity |
| PitchShiftChannel.AllocateBuffers | worklets/hq-pitch-shifter.js:107-125 | five distinct per-bin arrays of halfSize + 1 entries and three distinct frame-sized arrays |
| PitchShiftChannel.BuildTables | worklets/hq-pitch-shifter.js:95-127 | the Hann window, its scale for the hop, the expected phase of every bin, and an FFT of the frame size |
| PitchShiftChannel.ExpectedPhases | worklets/hq-pitch-shifter.js:100-105 | one expected phase per bin |
| PitchShiftChannel.Windowed | worklets/hq-pitch-shifter.js:212-215 | windowing keeps the frame's length and maps silence to silence |
| PitchShiftChannel.AddScaled | worklets/hq-pitch-shifter.js:276-280 | the overlap-add keeps the accumulator's length and adds nothing to a silent accumulator from a silent frame |
| DspNode.ApplyRecords | js/core/dsp-node.js:158-163 | applying saved strategy records keeps the number of parameters |
| JsValues.Round | js/nodes/synth-node.js:44 | `Math.round` gives the integer within one half of x, halves going up |
| JsValues.Rem | js/nodes/chaos-node.js:203 | JavaScript's `%` on finite numbers: smaller in magnitude than the divisor, with the sign of the dividend |
| JsValues.Trunc | js/nodes/chaos-node.js:104 | truncation towards zero: the integer part of x, on x's side of zero |

## Left out
- Floating point: numbers are exact reals. The model does not capture the rounding of `Float32Array` entries (curves, ring buffers, spectra), IEEE double rounding, overflow to ±Infinity from finite operands, or the sign of zero.
- Transcendental functions are opaque host values (`HostMath`). These are `Math.sin`/`cos`/`exp`/`pow`/`hypot`/`atan2`, the Hann window, `toLog`/`fromLog`, the `pow` of the editor's signed-power slider mapping and the MIDI note frequency. No claim is made about their numeric values.
- The phase vocoder's spectral numerics are not proved correct: magnitude and phase analysis, phase unwrapping, resynthesis and window-scale energy. The FFT is modelled for its index structure and data flow; that it computes the discrete Fourier transform, or that forward and inverse transforms round-trip, is a floating-point claim outside the model.
- `Math.random`, `Date.now`, the audio clock and the `sampleRate` global are method parameters.
- AudioParam scheduling (`setTargetAtTime`, `linearRampToValueAtTime`) is modelled as the target each call sets. The synth's gain envelopes (and with them the attack, decay and sustain sliders' handlers, which only store envelope times) and the scheduled note frequency are not modelled.
- Async host plumbing is not modelled: worklet module loading, bypass wiring, `setTimeout` timers (the chaos node's delayed disconnection of a torn-down voice, js/nodes/chaos-node.js:174, and the pitch shifter's bypass cleanup, js/nodes/pitch-shifter-node.js:220) and the `port.postMessage` channel. Posts are recorded as appended messages.
- The chaos node's periodic waves, the parameter records its `initAudio` builds and its voice teardown are not modelled.
- Under each node's `initAudio`, only the state that later operations read is modelled: which graph parts exist, the shaper curves, the first output and, for the distortion and value nodes, what their sliders' first `initializeParams` pass installs (the curve and gain targets; the settled value, the offset target and the subscriber updates). Node creation and connection calls are not, and neither is the sample-and-hold node's `updateFrequencyParam`.
- The editor's `onRemoved` unregistration of dynamic nodes (`unregisterDynamicNode`) is not modelled.
- GraphApp.App.DeleteNode: the removed connections are returned, not disconnected. For a removed parameter connection, the target node's modulator list does not lose the deleted node and its parameter is not settled again (`removeParamModulator` and `updateParam` on the target), and the source node's subscriber list is not updated.
- GraphApp.App.DeleteNode: the deleted node's `onRemoved` is not called; each node's `OnRemoved` is a separate method of its class. The dynamic-node unregistration and `activeSourceForLoad` are not modelled.
- GraphApp.App.ConnectParam: `fromNode.addSubscriber(toNode, paramIndex)` is not called; the subscriber lists are modelled on each control node's class (`AddSubscriber`), not through the app.
- The editor's canvas drawing, Bézier hit-testing (`findConnectionAt`), mouse and keyboard handlers, preset fetch and file save/load are not modelled. The slider's non-linear value curve is passed in as a function.
- ValueNode.ExtraDataRoundTrip: restricted to a truthy title and scale, because restoring skips falsy ones. `Object.assign` of slider fields with values of other types is not modelled.
- MultiplyNode.Node.UpdateOutput: the source skips a product that is not finite; a product of two reals is always finite here, so that branch does not arise.
- LfoNode, DistortionNode: slider values are finite numbers; NaN reaching these handlers is not modelled.
- AllpassDelay.DefaultDelay: a NaN proposal is excluded. In the source it makes `defaultDelaySamples` NaN, so every frame that falls back to the default reads and writes NaN.
- AllpassDelay.Processor.constructor: a NaN `defaultDelaySamples` option is excluded, as for `DefaultDelay`.
- AllpassDelay.MaxDelay: NaN and +Infinity are excluded. A NaN proposal makes zero-length buffers, and the typed-array allocation throws on +Infinity.
- The thin wrappers over built-in Web Audio nodes (gain, mixer, panner, delay, biquad, comb, FDN, diffuser, ring modulator, sources, analyser reads) only create and connect host nodes, and are not part of this model.

## Findings
| source | as written | input that shows it | evidently intended | confidence | as-written member | corrected member |
|---|---|---|---|---|---|---|
| worklets/hq-pitch-shifter.js:305-312 | `power <<= 1` is a 32-bit shift, so doubling 2^30 gives −2^31 and then 0, which stays below any request above 2^30; the loop never ends | an `fftSize` of 2^31, or `Infinity` | stop doubling at the cap of 8192 and return it | not executed | PitchShiftConfig.AsWrittenNeverExits | PitchShiftConfig.SanitizeFftSize |
| worklets/hq-pitch-shifter.js:382-386 | `_ensureChannels(opts.maxChannels \|\| 2)` loops while `i < count`; for a `maxChannels` of `Infinity` the test never fails and channels are created until memory runs out | `processorOptions: { maxChannels: Infinity }` | a finite channel count; the model falls back to the default 2 for +Infinity | not executed | PitchShiftProcessor.AsWrittenChannelsNeverStop | PitchShiftProcessor.ChannelCount |
