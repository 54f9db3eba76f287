/**
 * The radix-2 FFT of worklets/hq-pitch-shifter.js: the bit-reversal
 * table built by the constructor, the in-place swap pass that starts
 * every transform, the butterfly stages and the inverse scaling.
 */
module SpectralEngine {
  import opened JsValues
  import opened HostMath

  function Pow2(n: nat): (r: nat)
    ensures r >= 1
  {
    if n == 0 then 1 else 2 * Pow2(n - 1)
  }

  lemma {:induction false} Pow2Add(a: nat, b: nat)
    ensures Pow2(a + b) == Pow2(a) * Pow2(b)
  {
    if a > 0 {
      Pow2Add(a - 1, b);
    }
  }

  lemma {:induction false} Pow2Monotone(a: nat, b: nat)
    requires a <= b
    ensures Pow2(a) <= Pow2(b)
  {
    if a < b {
      Pow2Monotone(a, b - 1);
    }
  }

  /** n is 2^k for some k (Math.log2(n) is an integer). */
  predicate IsPowerOfTwo(n: nat)
  {
    n == 1 || (n >= 2 && n % 2 == 0 && IsPowerOfTwo(n / 2))
  }

  /** The exponent of a power of two. */
  function Log2(n: nat): (k: nat)
    requires IsPowerOfTwo(n)
    ensures Pow2(k) == n
  {
    if n == 1 then 0 else 1 + Log2(n / 2)
  }

  lemma {:induction false} Pow2IsPowerOfTwo(k: nat)
    ensures IsPowerOfTwo(Pow2(k))
  {
    if k > 0 {
      Pow2IsPowerOfTwo(k - 1);
      assert Pow2(k) / 2 == Pow2(k - 1);
    }
  }

  /** The powers of two the audio code names as constants. */
  lemma Pow2Values()
    ensures Pow2(9) == 512 && Pow2(13) == 8192
    ensures Pow2(20) == 1048576 && Pow2(21) == 2097152 && Pow2(30) == 1073741824
  {
    assert Pow2(1) == 2;
    assert Pow2(3) == 8;
    assert Pow2(5) == 32;
    assert Pow2(7) == 128;
    assert Pow2(9) == 512;
    assert Pow2(11) == 2048;
    assert Pow2(13) == 8192;
    Pow2Add(9, 11);
    Pow2Add(9, 12);
    assert Pow2(12) == 4096;
    Pow2Add(9, 21);
  }

  lemma PowerOfTwoDouble(n: nat)
    requires IsPowerOfTwo(n)
    ensures IsPowerOfTwo(2 * n)
  {
    assert (2 * n) / 2 == n;
  }

  /** The low `n` bits of `x`, least significant first. */
  function Bits(x: nat, n: nat): (s: seq<bool>)
    ensures |s| == n
  {
    if n == 0 then [] else [x % 2 == 1] + Bits(x / 2, n - 1)
  }

  /** The number whose bits, least significant first, are `s`. */
  function FromBits(s: seq<bool>): nat
  {
    if s == [] then 0 else (if s[0] then 1 else 0) + 2 * FromBits(s[1..])
  }

  function Reverse<T>(s: seq<T>): (r: seq<T>)
    ensures |r| == |s|
  {
    if s == [] then [] else Reverse(s[1..]) + [s[0]]
  }

  /** FFT.reverseBits(value, bits): the low `bits` bits of `value`, in reverse order. */
  function ReverseBits(value: nat, bits: nat): nat
  {
    FromBits(Reverse(Bits(value, bits)))
  }

  lemma {:induction false} FromBitsBound(s: seq<bool>)
    ensures FromBits(s) < Pow2(|s|)
  {
    if s != [] {
      FromBitsBound(s[1..]);
    }
  }

  lemma {:induction false} BitsOfFromBits(s: seq<bool>)
    ensures Bits(FromBits(s), |s|) == s
  {
    if s != [] {
      DigitSplit(if s[0] then 1 else 0, FromBits(s[1..]));
      BitsOfFromBits(s[1..]);
    }
  }

  /** The last binary digit and the rest of d + 2·y. */
  lemma DigitSplit(d: nat, y: nat)
    requires d < 2
    ensures (d + 2 * y) % 2 == d && (d + 2 * y) / 2 == y
  {
    DivUnique(d + 2 * y, 2, y, d);
  }

  lemma {:induction false} FromBitsOfBits(x: nat, n: nat)
    requires x < Pow2(n)
    ensures FromBits(Bits(x, n)) == x
  {
    if n > 0 {
      FromBitsOfBits(x / 2, n - 1);
      assert Bits(x, n)[1..] == Bits(x / 2, n - 1);
    }
  }

  lemma {:induction false} ReverseTwice<T>(s: seq<T>)
    ensures Reverse(Reverse(s)) == s
  {
    if s != [] {
      ReverseSnoc(Reverse(s[1..]), s[0]);
      ReverseTwice(s[1..]);
    }
  }

  lemma {:induction false} ReverseSnoc<T>(s: seq<T>, x: T)
    ensures Reverse(s + [x]) == [x] + Reverse(s)
  {
    if s != [] {
      assert (s + [x])[1..] == s[1..] + [x];
      ReverseSnoc(s[1..], x);
    } else {
      assert s + [x] == [x];
    }
  }

  lemma MulMonotoneStrict(a: int, b: int, d: int)
    requires d > 0
    ensures a < b <==> a * d < b * d
  {
    if a < b {
      MulLeft(1, b - a, d);
      assert (b - a) * d == b * d - a * d;
    } else {
      MulLeft(0, a - b, d);
      assert (a - b) * d == a * d - b * d;
    }
  }

  /** Quotient and remainder are unique. */
  lemma DivUnique(x: nat, d: nat, q: nat, r: nat)
    requires d > 0 && r < d && x == q * d + r
    ensures x / d == q && x % d == r
  {
    var q', r' := x / d, x % d;
    assert x == q' * d + r';
    assert x < (q' + 1) * d;
    assert x < (q + 1) * d;
    MulMonotoneStrict(q, q' + 1, d);
    MulMonotoneStrict(q', q + 1, d);
  }

  lemma DivDiv(x: nat, a: nat, b: nat)
    requires a > 0 && b > 0
    ensures x / a / b == x / (a * b)
  {
    var y, r1 := x / a, x % a;
    var q, r2 := y / b, y % b;
    var r := Recombine(x, a, b, y, r1, q, r2);
    DivUnique(x, a * b, q, r);
  }

  /** x = y·a + r1 and y = q·b + r2 give x = q·(a·b) + r with r = r2·a + r1 < a·b. */
  lemma Recombine(x: nat, a: nat, b: nat, y: nat, r1: nat, q: nat, r2: nat) returns (r: nat)
    requires a > 0 && b > 0 && r1 < a && r2 < b
    requires x == y * a + r1 && y == q * b + r2
    ensures r < a * b && x == q * (a * b) + r
  {
    r := r2 * a + r1;
    assert y * a == q * b * a + r2 * a;
    assert q * b * a == q * (a * b);
    MulLeft(r2, b - 1, a);
    assert (b - 1) * a == a * b - a;
  }

  lemma DivPow2(x: nat, n: nat)
    ensures x / 2 / Pow2(n) == x / Pow2(n + 1)
  {
    DivDiv(x, 2, Pow2(n));
  }

  /** One more step of the loop in reverseBits appends bit n of x on the right. */
  lemma {:induction false} BitsSnoc(x: nat, n: nat)
    ensures Bits(x, n + 1) == Bits(x, n) + [x / Pow2(n) % 2 == 1]
  {
    if n > 0 {
      BitsSnoc(x / 2, n - 1);
      DivPow2(x, n - 1);
    }
  }

  /** The bit-reversed index is a valid table index. */
  lemma ReverseBitsBound(value: nat, bits: nat)
    ensures ReverseBits(value, bits) < Pow2(bits)
  {
    FromBitsBound(Reverse(Bits(value, bits)));
  }

  /** Reversing the bits twice gives the index back: the table is an involution. */
  lemma ReverseBitsInvolution(value: nat, bits: nat)
    requires value < Pow2(bits)
    ensures ReverseBits(ReverseBits(value, bits), bits) == value
  {
    var s := Reverse(Bits(value, bits));
    BitsOfFromBits(s);
    ReverseTwice(Bits(value, bits));
    FromBitsOfBits(value, bits);
  }

  lemma ReverseBitsStep(value: nat, i: nat)
    ensures ReverseBits(value, i + 1) == 2 * ReverseBits(value, i) + value / Pow2(i) % 2
  {
    BitsSnoc(value, i);
    ReverseSnoc(Bits(value, i), value / Pow2(i) % 2 == 1);
    var t := [value / Pow2(i) % 2 == 1] + Reverse(Bits(value, i));
    assert t[1..] == Reverse(Bits(value, i));
  }

  /**
   * The loop of FFT.reverseBits. `(result << 1) | (x & 1)` and `x >>= 1`
   * are 2 * result + x % 2 and x / 2 for the non-negative values below
   * 2^31 that the table uses.
   */
  method ReverseBitsLoop(value: nat, bits: nat) returns (result: nat)
    ensures result == ReverseBits(value, bits)
    ensures result < Pow2(bits)
  {
    var x := value;
    result := 0;
    for i := 0 to bits
      invariant x == value / Pow2(i)
      invariant result == ReverseBits(value, i)
    {
      ReverseBitsStep(value, i);
      DivDiv(value, Pow2(i), 2);
      result := 2 * result + x % 2;
      x := x / 2;
    }
    ReverseBitsBound(value, bits);
  }

  class Fft {
    const size: nat
    const levels: nat
    const rev: array<nat>
    const cosTable: array<real>
    const sinTable: array<real>

    ghost predicate Valid()
      reads this, rev
    {
      && (size == Pow2(levels) || (size == 0 && levels == 0))
      && rev.Length == size
      && cosTable.Length == size / 2
      && sinTable.Length == size / 2
      && forall i :: 0 <= i < size ==> rev[i] == ReverseBits(i, levels)
    }

    /**
     * The constructor for a size already known to be 2^levels; `Create`
     * is the checked entry point that rejects other sizes.
     */
    constructor Build(levels: nat, math: Math)
      ensures Valid()
      ensures size == Pow2(levels) && this.levels == levels
      ensures fresh(rev) && fresh(cosTable) && fresh(sinTable)
      ensures forall i :: 0 <= i < size / 2 ==>
        cosTable[i] == math.cos(TwiddleAngle(i, size)) && sinTable[i] == math.sin(TwiddleAngle(i, size))
    {
      var n := Pow2(levels);
      size := n;
      this.levels := levels;
      var table := BuildReversalTable(levels);
      var c, s := BuildTwiddles(n, math);
      rev := table;
      cosTable, sinTable := c, s;
    }

    /**
     * The size-0 transform `new FFT(0)` builds: `Math.log2(0)` is
     * −Infinity, which `Math.floor` leaves as it is, so the size passes
     * the check; every table is empty and no loop of the transform runs,
     * so `levels` is never read and is kept at 0 here.
     */
    constructor Empty()
      ensures Valid() && size == 0 && levels == 0
      ensures fresh(rev) && fresh(cosTable) && fresh(sinTable)
    {
      size := 0;
      levels := 0;
      rev := new nat[0];
      cosTable := new real[0];
      sinTable := new real[0];
    }

    /** Every entry of the bit-reversal table is an index, and the table is its own inverse. */
    lemma TableIsInvolution()
      requires Valid()
      ensures forall i :: 0 <= i < size ==> rev[i] < size && rev[rev[i]] == i
    {
      forall i | 0 <= i < size
        ensures rev[i] < size && rev[rev[i]] == i
      {
        ReverseBitsBound(i, levels);
        ReverseBitsInvolution(i, levels);
      }
    }

    /**
     * The first loop of transform: swap entries i and rev[i] once per
     * pair (when rev[i] > i). Afterwards entry i holds the old entry rev[i].
     */
    method BitReversePermute(re: array<real>, im: array<real>)
      requires Valid()
      requires re.Length == size && im.Length == size && re != im
      modifies re, im
      ensures forall i :: 0 <= i < size ==> ReverseBits(i, levels) < size
      ensures forall i :: 0 <= i < size ==>
        re[i] == old(re[ReverseBits(i, levels)]) && im[i] == old(im[ReverseBits(i, levels)])
    {
      TableIsInvolution();
      SwapPass(rev, re, im);
    }

    /**
     * The butterfly stages (widths 2, 4, ..., size) over the twiddle
     * tables. Their floating-point result is not specified; what is
     * proved is that every index they touch is in range and that an
     * all-zero spectrum stays all zero.
     */
    method Butterflies(re: array<real>, im: array<real>, inverse: bool)
      requires Valid()
      requires re.Length == size && im.Length == size && re != im
      modifies re, im
      ensures AllZero(old(re[..])) && AllZero(old(im[..])) ==> AllZero(re[..]) && AllZero(im[..])
    {
      var stage: nat := 1;
      while stage <= levels
        invariant 1 <= stage <= levels + 1
        invariant AllZero(old(re[..])) && AllZero(old(im[..])) ==> AllZero(re[..]) && AllZero(im[..])
      {
        Pow2Add(stage, levels - stage);
        ButterflyStage(re, im, Pow2(stage) / 2, Pow2(levels - stage), inverse);
        stage := stage + 1;
      }
    }

    /** One stage: the blocks of width 2·halfLen, each combined with twiddle stride `step`. */
    method ButterflyStage(re: array<real>, im: array<real>, halfLen: nat, step: nat, inverse: bool)
      requires Valid()
      requires re.Length == size && im.Length == size && re != im
      requires halfLen >= 1 && step >= 1 && 2 * halfLen * step == size
      modifies re, im
      ensures AllZero(old(re[..])) && AllZero(old(im[..])) ==> AllZero(re[..]) && AllZero(im[..])
    {
      var len := 2 * halfLen;
      var i := 0;
      for b := 0 to step
        invariant i == b * len
        invariant AllZero(old(re[..])) && AllZero(old(im[..])) ==> AllZero(re[..]) && AllZero(im[..])
      {
        MulLeft(b + 1, step, len);
        ButterflyBlock(re, im, i, halfLen, step, inverse);
        i := i + len;
      }
    }

    /** The inner loop of one block, starting at index i. */
    method ButterflyBlock(re: array<real>, im: array<real>, i: nat, halfLen: nat, step: nat, inverse: bool)
      requires Valid()
      requires re.Length == size && im.Length == size && re != im
      requires i + 2 * halfLen <= size && halfLen * step * 2 == size
      modifies re, im
      ensures AllZero(old(re[..])) && AllZero(old(im[..])) ==> AllZero(re[..]) && AllZero(im[..])
    {
      for j := 0 to halfLen
        invariant AllZero(old(re[..])) && AllZero(old(im[..])) ==> AllZero(re[..]) && AllZero(im[..])
      {
        var index := j * step;
        MulLeft(j + 1, halfLen, step);
        assert index < cosTable.Length;
        var wr := cosTable[index];
        var wi := if inverse then -sinTable[index] else sinTable[index];
        var lo, hi := i + j, i + j + halfLen;
        var xr := re[hi];
        var xi := im[hi];
        var tr := wr * xr - wi * xi;
        var ti := wr * xi + wi * xr;
        re[hi] := re[lo] - tr;
        im[hi] := im[lo] - ti;
        re[lo] := re[lo] + tr;
        im[lo] := im[lo] + ti;
      }
    }

    /** The last loop of an inverse transform: every entry is divided by size. */
    method ScaleInverse(re: array<real>, im: array<real>)
      requires Valid()
      requires re.Length == size && im.Length == size && re != im
      modifies re, im
      ensures forall i :: 0 <= i < size ==> re[i] == old(re[i]) * (1.0 / size as real)
      ensures forall i :: 0 <= i < size ==> im[i] == old(im[i]) * (1.0 / size as real)
    {
      // For size 0 the factor is 1/0 = Infinity and the loop has no iteration.
      if size > 0 {
        ScaleAll(re, im, 1.0 / size as real);
      }
    }

    /** FFT.transform: swap pass, butterflies, and for the inverse the 1/size scaling. */
    method Transform(re: array<real>, im: array<real>, inverse: bool)
      requires Valid()
      requires re.Length == size && im.Length == size && re != im
      modifies re, im
      ensures AllZero(old(re[..])) && AllZero(old(im[..])) ==> AllZero(re[..]) && AllZero(im[..])
    {
      ghost var zero := AllZero(re[..]) && AllZero(im[..]);
      BitReversePermute(re, im);
      assert zero ==> AllZero(re[..]) && AllZero(im[..]);
      Butterflies(re, im, inverse);
      if inverse {
        ScaleInverse(re, im);
      }
    }
  }

  /** The table loop of the constructor: rev[i] = reverseBits(i, levels). */
  /**
   * The swap loop of transform: entry i is exchanged with entry rev[i]
   * when rev[i] > i. For a table that is an involution this moves every
   * entry k to the place rev[k].
   */
  method SwapPass(rev: array<nat>, re: array<real>, im: array<real>)
    requires rev.Length == re.Length && im.Length == re.Length && re != im
    requires forall k :: 0 <= k < rev.Length ==> rev[k] < rev.Length && rev[rev[k]] == k
    modifies re, im
    ensures forall k :: 0 <= k < rev.Length ==> re[k] == old(re[rev[k]]) && im[k] == old(im[rev[k]])
  {
    for i := 0 to rev.Length
      invariant forall k :: 0 <= k < rev.Length ==>
        re[k] == (if k < i || rev[k] < i then old(re[rev[k]]) else old(re[k]))
      invariant forall k :: 0 <= k < rev.Length ==>
        im[k] == (if k < i || rev[k] < i then old(im[rev[k]]) else old(im[k]))
    {
      var j := rev[i];
      if j > i {
        var tempR := re[i];
        var tempI := im[i];
        re[i] := re[j];
        im[i] := im[j];
        re[j] := tempR;
        im[j] := tempI;
      }
    }
  }

  /** The scaling loop of the inverse transform: every entry times `factor`. */
  method ScaleAll(re: array<real>, im: array<real>, factor: real)
    requires im.Length == re.Length && re != im
    modifies re, im
    ensures forall i :: 0 <= i < re.Length ==> re[i] == old(re[i]) * factor && im[i] == old(im[i]) * factor
  {
    for i := 0 to re.Length
      invariant forall k :: 0 <= k < i ==> re[k] == old(re[k]) * factor && im[k] == old(im[k]) * factor
      invariant forall k :: i <= k < re.Length ==> re[k] == old(re[k]) && im[k] == old(im[k])
    {
      re[i] := re[i] * factor;
      im[i] := im[i] * factor;
    }
  }

  method BuildReversalTable(levels: nat) returns (table: array<nat>)
    ensures fresh(table) && table.Length == Pow2(levels)
    ensures forall i :: 0 <= i < table.Length ==> table[i] == ReverseBits(i, levels)
  {
    table := new nat[Pow2(levels)];
    for i := 0 to table.Length
      invariant forall k :: 0 <= k < i ==> table[k] == ReverseBits(k, levels)
    {
      var r := ReverseBitsLoop(i, levels);
      table[i] := r;
    }
  }

  /** The twiddle loop of the constructor: cos and sin of -2·π·i/size for i < size/2. */
  method BuildTwiddles(n: nat, math: Math) returns (c: array<real>, s: array<real>)
    ensures fresh(c) && fresh(s) && c.Length == n / 2 && s.Length == n / 2
    ensures forall i :: 0 <= i < n / 2 ==> c[i] == math.cos(TwiddleAngle(i, n)) && s[i] == math.sin(TwiddleAngle(i, n))
  {
    c := new real[n / 2];
    s := new real[n / 2];
    for i := 0 to n / 2
      invariant forall k :: 0 <= k < i ==> c[k] == math.cos(TwiddleAngle(k, n)) && s[k] == math.sin(TwiddleAngle(k, n))
    {
      c[i] := math.cos(TwiddleAngle(i, n));
      s[i] := math.sin(TwiddleAngle(i, n));
    }
  }

  /** The twiddle angle -2·π·i/size of the constructor's tables. */
  function TwiddleAngle(i: nat, size: nat): real
  {
    if size == 0 then 0.0 else -2.0 * Pi * i as real / size as real
  }

  lemma MulLeft(a: int, b: int, c: int)
    requires a <= b && c >= 0
    ensures a * c <= b * c
  {
  }

  predicate AllZero(s: seq<real>)
  {
    forall k :: 0 <= k < |s| ==> s[k] == 0.0
  }

  /**
   * new FFT(size): throws unless Math.floor leaves log2(size) as it is,
   * that is unless size is a power of two or 0 (log2(0) is −Infinity);
   * otherwise the table holds rev[i] = reverseBits(i, log2(size)).
   */
  method Create(size: nat, math: Math) returns (r: Option<Fft>)
    ensures r.None? <==> size != 0 && !IsPowerOfTwo(size)
    ensures r.Some? ==> r.value.Valid() && r.value.size == size
    ensures r.Some? && size != 0 ==> Pow2(r.value.levels) == size
    ensures r.Some? ==> fresh(r.value.rev) && fresh(r.value.cosTable) && fresh(r.value.sinTable)
  {
    if size == 0 {
      var f := new Fft.Empty();
      return Some(f);
    }
    if !IsPowerOfTwo(size) {
      return None;
    }
    var f := new Fft.Build(Log2(size), math);
    return Some(f);
  }
}
