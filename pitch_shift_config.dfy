/**
 * The configuration arithmetic of worklets/hq-pitch-shifter.js: the FFT
 * size and overlap sanitisers (the channel and the processor carry
 * identical copies; both are modelled here once) and the hop and
 * latency derived from them.
 */
module PitchShiftConfig {
  import opened JsValues
  import opened SpectralEngine

  const MinFftSize: nat := 512
  const MaxFftSize: nat := 8192

  /** The FFT sizes the sanitiser can produce. */
  predicate IsFftSize(n: nat)
  {
    n == 512 || n == 1024 || n == 2048 || n == 4096 || n == 8192
  }

  lemma FftSizeIsPowerOfTwo(n: nat)
    requires IsFftSize(n)
    ensures IsPowerOfTwo(n) && n >= 2 && n % 2 == 0
  {
    Pow2Values();
    Pow2IsPowerOfTwo(9);
    PowerOfTwoDouble(512);
    PowerOfTwoDouble(1024);
    PowerOfTwoDouble(2048);
    PowerOfTwoDouble(4096);
  }

  /**
   * `power` is what the FFT-size sanitiser gives for the request `size`:
   * an FFT size that is not below the request (or is 8192) and whose
   * half is below it (or which is 512). Together with `IsFftSize` this
   * determines `power` uniquely (`SanitizedFftSizeUnique`).
   */
  ghost predicate SanitizedFftSize(size: Num, power: nat)
  {
    && IsFftSize(power)
    && (power == MaxFftSize || !Less(Fin(power as real), size))
    && (power == MinFftSize || Less(Fin((power / 2) as real), size))
  }

  lemma SanitizedFftSizeUnique(size: Num, p: nat, q: nat)
    requires SanitizedFftSize(size, p) && SanitizedFftSize(size, q)
    ensures p == q
  {
  }

  /** A size the sanitiser already produced comes back unchanged. */
  lemma SanitizedFftSizeFixes(p: nat, q: nat)
    requires IsFftSize(p) && SanitizedFftSize(Fin(p as real), q)
    ensures q == p
  {
    assert SanitizedFftSize(Fin(p as real), p);
    SanitizedFftSizeUnique(Fin(p as real), p, q);
  }

  /**
   * _sanitizeFFTSize as evidently intended: starting from 512, double
   * while the value is below `size`, never going past 8192. The doubling
   * stops at 8192 here instead of running on through the 32-bit shift,
   * which for requests above 2^30 never ends (see `AsWrittenNeverExits`).
   */
  method SanitizeFftSize(size: Num) returns (power: nat)
    ensures SanitizedFftSize(size, power)
  {
    power := 512;
    while power < MaxFftSize && Less(Fin(power as real), size)
      invariant IsFftSize(power)
      invariant power == MinFftSize || Less(Fin((power / 2) as real), size)
      decreases MaxFftSize - power
    {
      power := 2 * power;
    }
  }

  /**
   * The 32-bit signed result of `x << 1` for a 32-bit signed x: the
   * doubled value, brought back into range by one turn of 2^32.
   */
  function ShiftLeft32(x: int): (r: int)
    requires -0x8000_0000 <= x < 0x8000_0000
    ensures -0x8000_0000 <= r < 0x8000_0000
    ensures r == 2 * x - 0x1_0000_0000 || r == 2 * x || r == 2 * x + 0x1_0000_0000
    ensures -0x4000_0000 <= x < 0x4000_0000 ==> r == 2 * x
  {
    var d := 2 * x;
    if d >= 0x8000_0000 then d - 0x1_0000_0000
    else if d < -0x8000_0000 then d + 0x1_0000_0000
    else d
  }

  /** The value of `power` in _sanitizeFFTSize after k passes through its loop, as written. */
  function AsWrittenPower(k: nat): (p: int)
    ensures -0x8000_0000 <= p < 0x8000_0000
  {
    if k == 0 then 512 else ShiftLeft32(AsWrittenPower(k - 1))
  }

  /** The first 21 passes double 512 up to 2^30 without wrapping. */
  lemma {:induction false} AsWrittenPowerClimbs(k: nat)
    requires k <= 21
    ensures AsWrittenPower(k) == 512 * Pow2(k)
  {
    if k > 0 {
      AsWrittenPowerClimbs(k - 1);
      Pow2Values();
      Pow2Monotone(k - 1, 20);
      var p := AsWrittenPower(k - 1);
      assert 0 < p <= 0x2000_0000;
      assert AsWrittenPower(k) == 2 * p;
      assert Pow2(k) == 2 * Pow2(k - 1);
    }
  }

  /** Pass 22 shifts 2^30 into the sign bit. */
  lemma AsWrittenPowerWraps(k: nat)
    requires k == 22
    ensures AsWrittenPower(k) == -0x8000_0000
  {
    AsWrittenPowerClimbs(k - 1);
    Pow2Values();
    assert AsWrittenPower(k - 1) == 0x4000_0000;
  }

  /** From pass 23 on the value is 0, and 0 shifted is 0. */
  lemma {:induction false} AsWrittenPowerStaysZero(k: nat)
    requires k >= 23
    ensures AsWrittenPower(k) == 0
  {
    if k == 23 {
      AsWrittenPowerWraps(k - 1);
      assert ShiftLeft32(-0x8000_0000) == 0;
    } else {
      AsWrittenPowerStaysZero(k - 1);
      assert ShiftLeft32(0) == 0;
    }
  }

  /** The passes climb through the powers of two to 2^30, then wrap to -2^31 and stay at 0. */
  lemma AsWrittenPowerClosedForm(k: nat)
    ensures k <= 21 ==> AsWrittenPower(k) == 512 * Pow2(k)
    ensures k == 22 ==> AsWrittenPower(k) == -0x8000_0000
    ensures k >= 23 ==> AsWrittenPower(k) == 0
  {
    if k <= 21 {
      AsWrittenPowerClimbs(k);
    } else if k == 22 {
      AsWrittenPowerWraps(k);
    } else {
      AsWrittenPowerStaysZero(k);
    }
  }

  /**
   * For any request above 2^30 (including +Infinity) the loop guard
   * `power < size` holds after every pass: the loop never exits.
   */
  lemma AsWrittenNeverExits(size: Num, k: nat)
    requires Less(Fin(0x4000_0000 as real), size)
    ensures Less(Fin(AsWrittenPower(k) as real), size)
  {
    AsWrittenPowerClosedForm(k);
    Pow2Values();
    if k <= 21 {
      Pow2Monotone(k, 21);
      assert 512 * Pow2(k) <= 512 * Pow2(21);
    }
  }

  /** The concrete request that shows it: fftSize = 2^31. */
  lemma AsWrittenHangsOnTwoPow31(k: nat)
    ensures Less(Fin(AsWrittenPower(k) as real), Fin(0x8000_0000 as real))
  {
    AsWrittenNeverExits(Fin(0x8000_0000 as real), k);
  }

  /** The start value of _sanitizeOverlap: max(2, floor(overlap)) capped at size. */
  function OverlapStart(overlap: Num, size: nat): (v: int)
    requires size >= 2
    ensures 2 <= v <= size
    ensures overlap.Fin? && 2.0 <= overlap.v && overlap.v < size as real ==> v == overlap.v.Floor
  {
    match overlap
    case NaN => 2
    case NegInf => 2
    case PosInf => size
    case Fin(x) => if x.Floor < 2 then 2 else if x.Floor > size then size else x.Floor
  }

  /**
   * `value` is what the overlap sanitiser gives: the largest divisor of
   * size between 2 and the start value, or 2 when there is none.
   */
  ghost predicate SanitizedOverlap(overlap: Num, size: nat, value: nat)
    requires size >= 2
  {
    && 2 <= value <= OverlapStart(overlap, size)
    && (value == 2 || size % value == 0)
    && (size % 2 == 0 ==> size % value == 0)
    && (forall d :: value < d <= OverlapStart(overlap, size) ==> size % d != 0)
  }

  /**
   * _sanitizeOverlap(overlap, size): count down from the start value to
   * the largest divisor of size, falling back to 2. For a NaN overlap
   * `size % NaN !== 0` holds, so the fallback gives 2.
   */
  method SanitizeOverlap(overlap: Num, size: nat) returns (value: nat)
    requires size >= 2
    ensures SanitizedOverlap(overlap, size, value)
  {
    if overlap.NaN? {
      return 2;
    }
    value := OverlapStart(overlap, size);
    while size % value != 0 && value > 2
      invariant 2 <= value <= OverlapStart(overlap, size)
      invariant forall d :: value < d <= OverlapStart(overlap, size) ==> size % d != 0
      decreases value
    {
      value := value - 1;
    }
    if size % value != 0 {
      value := 2;
    }
  }

  /** An overlap that already divides the size comes back unchanged. */
  lemma SanitizedOverlapFixes(size: nat, o: nat, q: nat)
    requires size >= 2 && 2 <= o <= size && size % o == 0
    requires SanitizedOverlap(Fin(o as real), size, q)
    ensures q == o
  {
    assert (o as real).Floor == o;
    assert OverlapStart(Fin(o as real), size) == o;
  }

  /** hopSize = max(1, floor(fftSize / overlap)) */
  function HopSize(size: nat, overlap: nat): (hop: nat)
    requires overlap >= 1
    ensures hop >= 1
    ensures size >= overlap ==> hop == size / overlap
  {
    if size / overlap < 1 then 1 else size / overlap
  }

  /** latencySamples = max(0, fftSize - hopSize) */
  function LatencySamples(size: nat, hop: nat): (latency: nat)
    ensures hop <= size ==> latency + hop == size
  {
    if size < hop then 0 else size - hop
  }

  /**
   * With a sanitised size and overlap the hop divides the frame exactly
   * (overlap · hop == fftSize) and the latency is fftSize − hop.
   */
  lemma HopTilesFrame(size: nat, overlap: nat)
    requires IsFftSize(size) && 2 <= overlap <= size && size % overlap == 0
    ensures HopSize(size, overlap) * overlap == size
    ensures 1 <= HopSize(size, overlap) <= size / 2
    ensures LatencySamples(size, HopSize(size, overlap)) == size - HopSize(size, overlap)
  {
    var hop := size / overlap;
    assert size == hop * overlap + size % overlap;
    assert hop * 2 <= hop * overlap;
  }
}
