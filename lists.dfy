/**
 * `Array.prototype.filter` and the facts about it that the graph code
 * relies on: it keeps exactly the elements that pass, as often as they
 * occur, in their original order.
 */
module Lists {

  /** `s.filter(p)` */
  function Filter<T>(s: seq<T>, p: T -> bool): (r: seq<T>)
    ensures |r| <= |s|
    decreases |s|
  {
    if |s| == 0 then []
    else Filter(s[..|s| - 1], p) + (if p(s[|s| - 1]) then [s[|s| - 1]] else [])
  }

  /** Filtering a concatenation filters each part, so the order is kept. */
  lemma {:induction false} FilterAppend<T>(a: seq<T>, b: seq<T>, p: T -> bool)
    ensures Filter(a + b, p) == Filter(a, p) + Filter(b, p)
    decreases |b|
  {
    if |b| == 0 {
      assert a + b == a;
    } else {
      var b' := b[..|b| - 1];
      assert (a + b)[..|a + b| - 1] == a + b';
      assert (a + b)[|a + b| - 1] == b[|b| - 1];
      FilterAppend(a, b', p);
    }
  }

  /** The complementary test. */
  function Not<T>(p: T -> bool): T -> bool {
    x => !p(x)
  }

  /** Each passing element is kept as often as it occurs; no failing element is kept. */
  lemma {:induction false} FilterCount<T>(s: seq<T>, p: T -> bool, x: T)
    ensures multiset(Filter(s, p))[x] == if p(x) then multiset(s)[x] else 0
    decreases |s|
  {
    if |s| > 0 {
      FilterCount(s[..|s| - 1], p, x);
      assert s == s[..|s| - 1] + [s[|s| - 1]];
    }
  }

  /** Membership after filtering. */
  lemma FilterMembers<T>(s: seq<T>, p: T -> bool, x: T)
    ensures x in Filter(s, p) <==> x in s && p(x)
  {
    FilterCount(s, p, x);
  }

  /** The elements that pass and the ones that fail together make up the list. */
  lemma {:induction false} FilterPartition<T>(s: seq<T>, p: T -> bool)
    ensures multiset(Filter(s, p)) + multiset(Filter(s, Not(p))) == multiset(s)
    decreases |s|
  {
    if |s| > 0 {
      var init := s[..|s| - 1];
      FilterPartition(init, p);
      assert s == init + [s[|s| - 1]];
    }
  }

  /** Filtering a list that already passes changes nothing. */
  lemma {:induction false} FilterKeepsAll<T>(s: seq<T>, p: T -> bool)
    requires forall i :: 0 <= i < |s| ==> p(s[i])
    ensures Filter(s, p) == s
    decreases |s|
  {
    if |s| > 0 {
      FilterKeepsAll(s[..|s| - 1], p);
      assert s == s[..|s| - 1] + [s[|s| - 1]];
    }
  }

  /** Filtering twice by the same test is filtering once. */
  lemma FilterIdempotent<T>(s: seq<T>, p: T -> bool)
    ensures Filter(Filter(s, p), p) == Filter(s, p)
  {
    var r := Filter(s, p);
    forall i | 0 <= i < |r| ensures p(r[i]) {
      FilterMembers(s, p, r[i]);
    }
    FilterKeepsAll(r, p);
  }

  /** No element occurs twice. */
  predicate Distinct<T(==)>(s: seq<T>) {
    forall i, j :: 0 <= i < j < |s| ==> s[i] != s[j]
  }

  /** A filtered distinct list is distinct. */
  lemma {:induction false} FilterDistinct<T>(s: seq<T>, p: T -> bool)
    requires Distinct(s)
    ensures Distinct(Filter(s, p))
    decreases |s|
  {
    if |s| > 0 {
      var init := s[..|s| - 1];
      var x := s[|s| - 1];
      FilterDistinct(init, p);
      var r := Filter(init, p);
      if p(x) {
        assert x !in init;
        FilterMembers(init, p, x);
        forall i, j | 0 <= i < j < |r| + 1 ensures (r + [x])[i] != (r + [x])[j] {
          if j == |r| {
            assert (r + [x])[i] == r[i];
          }
        }
      }
    }
  }

  /** The test `y => y !== x`. */
  function Without<T(==)>(x: T): T -> bool {
    y => y != x
  }

  /** The test `y => xs.includes(y)`. */
  function In<T(==)>(xs: seq<T>): T -> bool {
    y => y in xs
  }

  /** The test `y => !xs.includes(y)`. */
  function NotIn<T(==)>(xs: seq<T>): T -> bool {
    y => y !in xs
  }

  /** `s.indexOf(x)`: the first position holding `x`, or -1. */
  function FirstIndex<T(==)>(s: seq<T>, x: T): (r: int)
    ensures -1 <= r < |s|
    ensures r == -1 <==> x !in s
    ensures r >= 0 ==> s[r] == x && x !in s[..r]
  {
    if |s| == 0 then -1
    else if s[0] == x then 0
    else
      var k := FirstIndex(s[1..], x);
      assert s[1..] == s[..|s|][1..];
      if k < 0 then -1 else (assert s[..k + 1] == [s[0]] + s[1..][..k]; k + 1)
  }

  /** Two tests that agree on every element filter alike. */
  lemma {:induction false} FilterEquivalent<T>(s: seq<T>, p: T -> bool, q: T -> bool)
    requires forall i :: 0 <= i < |s| ==> p(s[i]) == q(s[i])
    ensures Filter(s, p) == Filter(s, q)
    decreases |s|
  {
    if |s| > 0 {
      FilterEquivalent(s[..|s| - 1], p, q);
    }
  }

  /** Filtering by `p` and then by `q` is filtering by their conjunction `r`. */
  lemma {:induction false} FilterThen<T>(s: seq<T>, p: T -> bool, q: T -> bool, r: T -> bool)
    requires forall i :: 0 <= i < |s| ==> r(s[i]) == (p(s[i]) && q(s[i]))
    ensures Filter(Filter(s, p), q) == Filter(s, r)
    decreases |s|
  {
    if |s| > 0 {
      var init := s[..|s| - 1];
      var x := s[|s| - 1];
      FilterThen(init, p, q, r);
      FilterAppend(Filter(init, p), if p(x) then [x] else [], q);
    }
  }

  /** In a distinct list, `splice(i, 1)` removes exactly the element at `i`. */
  lemma RemoveAt<T>(s: seq<T>, i: nat)
    requires Distinct(s) && i < |s|
    ensures s[..i] + s[i + 1..] == Filter(s, Without(s[i]))
  {
    var x := s[i];
    var a, b := s[..i], s[i + 1..];
    assert s == (a + [x]) + b;
    OthersDiffer(s, i, a, b);
    FilterDropsOne(a, x, b);
  }

  /** In a distinct list, the elements before and after index i all differ from s[i]. */
  lemma OthersDiffer<T>(s: seq<T>, i: nat, a: seq<T>, b: seq<T>)
    requires Distinct(s) && i < |s| && a == s[..i] && b == s[i + 1..]
    ensures forall k :: 0 <= k < |a| ==> Without(s[i])(a[k])
    ensures forall k :: 0 <= k < |b| ==> Without(s[i])(b[k])
  {
    forall k | 0 <= k < |a| ensures Without(s[i])(a[k]) {
      assert a[k] == s[k];
    }
    forall k | 0 <= k < |b| ensures Without(s[i])(b[k]) {
      assert b[k] == s[i + 1 + k];
    }
  }

  /** Filtering out x drops the one x between two runs without it. */
  lemma FilterDropsOne<T>(a: seq<T>, x: T, b: seq<T>)
    requires forall k :: 0 <= k < |a| ==> Without(x)(a[k])
    requires forall k :: 0 <= k < |b| ==> Without(x)(b[k])
    ensures Filter((a + [x]) + b, Without(x)) == a + b
  {
    var p := Without(x);
    FilterAppend(a + [x], b, p);
    FilterAppend(a, [x], p);
    assert [x][..0] == [];
    assert !p(x);
    assert Filter([x], p) == [];
    FilterKeepsAll(a, p);
    FilterKeepsAll(b, p);
    assert a + [] == a;
  }
}
