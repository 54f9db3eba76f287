/**
 * The input and output rings of a PitchShiftChannel
 * (worklets/hq-pitch-shifter.js). The source keeps each ring as a
 * Float32Array with a write cursor, a read cursor and a count
 * (`inputRing`/`inWrite`/`inRead`/`inCount` and the `out…` quartet);
 * here each quartet is one `Ring` object, since `_pushInput` and
 * `_pushOutput` are the same operation on the two quartets.
 */
module PitchShiftRing {

  /** The last n elements of s (all of s when it is shorter). */
  function Last<T>(s: seq<T>, n: nat): (r: seq<T>)
    ensures |r| == if |s| <= n then |s| else n
    ensures r == s[|s| - |r|..]
  {
    if |s| <= n then s else s[|s| - n..]
  }

  /** Appending in two steps, trimming after each, is appending once and trimming. */
  lemma LastExtend<T>(s: seq<T>, xs: seq<T>, ys: seq<T>, n: nat)
    ensures Last(Last(s + xs, n) + ys, n) == Last(s + (xs + ys), n)
  {
    var u := Last(s + xs, n);
    assert u + ys == (s + (xs + ys))[|s + xs| - |u|..];
  }

  /** Appending one element to at most n: the oldest goes only when there were n already. */
  lemma LastSnoc<T>(s: seq<T>, x: T, n: nat)
    requires 0 < n && |s| <= n
    ensures Last(s + [x], n) == if |s| == n then s[1..] + [x] else s + [x]
  {
    if |s| == n {
      assert (s + [x])[1..] == s[1..] + [x];
    }
  }

  lemma PrefixSnoc<T>(xs: seq<T>, i: nat)
    requires i < |xs|
    ensures xs[..i] + [xs[i]] == xs[..i + 1]
  {
  }

  lemma ModOnce(i: nat, n: nat)
    requires 0 < n && i < 2 * n
    ensures i % n == WrapIn(i, n)
  {
    if i < n {
      assert i == 0 * n + i;
    } else {
      assert i == 1 * n + (i - n);
    }
  }

  /** A position at most one lap past the end of a length-n buffer, brought back into range. */
  function WrapIn(i: nat, n: nat): (j: nat)
    requires 0 < n && i < 2 * n
    ensures j < n
  {
    if i < n then i else i - n
  }

  /** The `count` samples of the circular buffer s starting at `start`. */
  function Window(s: seq<real>, start: nat, count: nat): (w: seq<real>)
    requires start < |s| && count <= |s|
    ensures |w| == count
  {
    seq(count, k requires 0 <= k < count => s[WrapIn(start + k, |s|)])
  }

  lemma WindowDrop(s: seq<real>, start: nat, count: nat, n: nat)
    requires start < |s| && n <= count <= |s|
    ensures WrapIn(start + n, |s|) < |s|
    ensures Window(s, WrapIn(start + n, |s|), count - n) == Window(s, start, count)[n..]
  {
    var w := Window(s, WrapIn(start + n, |s|), count - n);
    forall k | 0 <= k < count - n
      ensures w[k] == Window(s, start, count)[k + n]
    {
      assert WrapIn(WrapIn(start + n, |s|) + k, |s|) == WrapIn(start + k + n, |s|);
    }
  }

  lemma WindowSnoc(s: seq<real>, start: nat, count: nat, x: real)
    requires start < |s| && count < |s|
    ensures Window(s[WrapIn(start + count, |s|) := x], start, count + 1) == Window(s, start, count) + [x]
  {
    var t := s[WrapIn(start + count, |s|) := x];
    var w := Window(t, start, count + 1);
    forall k | 0 <= k < count
      ensures w[k] == Window(s, start, count)[k]
    {
      assert WrapIn(start + k, |s|) != WrapIn(start + count, |s|);
    }
  }

  class Ring {
    const data: array<real>
    var write: nat
    var read: nat
    var count: nat

    /** The cursor invariant: the write cursor is `count` places past the read cursor. */
    ghost predicate Valid()
      reads this
    {
      && data.Length > 0
      && read < data.Length
      && count <= data.Length
      && write == WrapIn(read + count, data.Length)
    }

    /** The samples held, oldest first. */
    ghost function Contents(): (c: seq<real>)
      requires Valid()
      reads this, data
      ensures |c| == count
    {
      Window(data[..], read, count)
    }

    /** A freshly allocated, empty ring of the given capacity. */
    constructor (capacity: nat)
      requires capacity > 0
      ensures Valid() && fresh(data) && data.Length == capacity
      ensures Contents() == []
      ensures forall i :: 0 <= i < capacity ==> data[i] == 0.0
    {
      data := new real[capacity](_ => 0.0);
      write, read, count := 0, 0, 0;
    }

    /**
     * _pushInput / _pushOutput: when full, the read cursor advances first
     * (the oldest sample is dropped); then the sample is stored at the
     * write cursor. The ring holds the most recent `capacity` samples.
     */
    method Push(x: real)
      requires Valid()
      modifies this, data
      ensures Valid()
      ensures Contents() == Last(old(Contents()) + [x], data.Length)
    {
      ghost var before := Contents();
      LastSnoc(before, x, data.Length);
      if count >= data.Length {
        Discard(1);
      }
      Append(x);
    }

    /** _pushInput / _pushOutput applied to each sample of xs in turn. */
    method PushAll(xs: seq<real>)
      requires Valid()
      modifies this, data
      ensures Valid()
      ensures Contents() == Last(old(Contents()) + xs, data.Length)
    {
      ghost var start := Contents();
      assert start + xs[..0] == start;
      for i := 0 to |xs|
        invariant Valid()
        invariant Contents() == Last(start + xs[..i], data.Length)
      {
        Push(xs[i]);
        LastExtend(start, xs[..i], [xs[i]], data.Length);
        PrefixSnoc(xs, i);
      }
      assert xs[..|xs|] == xs;
    }

    /** The store half of a push, into a ring with room. */
    method Append(x: real)
      requires Valid() && count < data.Length
      modifies this, data
      ensures Valid()
      ensures Contents() == old(Contents()) + [x]
    {
      ghost var s := data[..];
      WindowSnoc(s, read, count, x);
      data[write] := x;
      assert data[..] == s[WrapIn(read + count, data.Length) := x];
      ModOnce(write + 1, data.Length);
      write := (write + 1) % data.Length;
      count := count + 1;
    }

    /**
     * _popOutput: 0 and no change on an empty ring, otherwise the oldest
     * sample, which is removed.
     */
    method Pop() returns (value: real)
      requires Valid()
      modifies this
      ensures Valid()
      ensures old(count) == 0 ==> value == 0.0 && unchanged(this)
      ensures old(count) > 0 ==> value == old(Contents())[0] && Contents() == old(Contents())[1..]
    {
      if count == 0 {
        return 0.0;
      }
      value := data[read];
      assert WrapIn(read + 0, data.Length) == read;
      assert value == Window(data[..], read, count)[0];
      WindowDrop(data[..], read, count, 1);
      ModOnce(read + 1, data.Length);
      read := (read + 1) % data.Length;
      count := count - 1;
    }

    /**
     * The cursor step at the end of _processFrame: the read cursor moves
     * `n` places and the count drops by n (`Math.max(0, …)` in the
     * source; a frame only runs with at least a frame's worth buffered).
     */
    method Discard(n: nat)
      requires Valid() && n <= count
      modifies this
      ensures Valid()
      ensures Contents() == old(Contents())[n..]
    {
      WindowDrop(data[..], read, count, n);
      ModOnce(read + n, data.Length);
      read := (read + n) % data.Length;
      count := count - n;
    }

    /** The cursor part of `reset`: all three back to 0. */
    method Clear()
      requires Valid()
      modifies this
      ensures Valid() && Contents() == []
    {
      write, read, count := 0, 0, 0;
    }
  }
}
