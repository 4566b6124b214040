/**
 * Array helpers the views rely on: `filter`, `map`, `reduce` with `+`,
 * `indexOf` and `slice` with JavaScript's semantics, and the facts that the
 * aggregates built from them do not depend on the order of their input.
 */
module Seqs {

  /** `s.filter(p)`: the elements satisfying `p`, in their original order. */
  function Filter<T>(s: seq<T>, p: T -> bool): (r: seq<T>)
    ensures |r| <= |s|
    ensures forall i :: 0 <= i < |r| ==> p(r[i])
    ensures forall i :: 0 <= i < |r| ==> r[i] in s
    ensures forall i :: 0 <= i < |s| ==> (s[i] in r <==> p(s[i]))
    decreases |s|
  {
    if s == [] then []
    else if p(s[0]) then [s[0]] + Filter(s[1..], p)
    else Filter(s[1..], p)
  }

  /** `s.map(f)`. */
  function Map<T, U>(s: seq<T>, f: T -> U): (r: seq<U>)
    ensures |r| == |s|
    ensures forall i :: 0 <= i < |s| ==> r[i] == f(s[i])
    decreases |s|
  {
    if s == [] then [] else [f(s[0])] + Map(s[1..], f)
  }

  /** `s.reduce((a, b) => a + b, 0)`. */
  function Total(s: seq<int>): int
    decreases |s|
  {
    if s == [] then 0 else s[0] + Total(s[1..])
  }

  /** `s.indexOf(x)`: the first position holding `x`, or -1 when there is none. */
  function IndexOf<T(==)>(s: seq<T>, x: T): (r: int)
    ensures -1 <= r < |s|
    ensures r == -1 <==> x !in s
    ensures 0 <= r ==> s[r] == x && forall j :: 0 <= j < r ==> s[j] != x
    decreases |s|
  {
    if s == [] then -1
    else if s[0] == x then 0
    else
      var k := IndexOf(s[1..], x);
      if k == -1 then -1 else k + 1
  }

  /** Where `slice` starts or stops for an integer argument: negative positions count from the end, and the result is clamped to the sequence. */
  function SliceBound(len: nat, k: int): (r: nat)
    ensures r <= len
    ensures 0 <= k <= len ==> r == k
    ensures k < 0 && len + k >= 0 ==> r == len + k
  {
    if k < 0 then (if len + k < 0 then 0 else len + k)
    else if k > len then len else k
  }

  /** `s.slice(start, end)` for integer arguments; empty when the start lies at or after the end. */
  function Slice<T>(s: seq<T>, start: int, end: int): (r: seq<T>)
    ensures 0 <= start <= end <= |s| ==> r == s[start..end]
    ensures SliceBound(|s|, start) >= SliceBound(|s|, end) ==> r == []
    ensures start <= end ==> |r| <= end - start
    ensures forall x :: x in r ==> x in s
  {
    var a, b := SliceBound(|s|, start), SliceBound(|s|, end);
    if a < b then s[a..b] else []
  }

  lemma {:induction false} FilterConcat<T>(a: seq<T>, b: seq<T>, p: T -> bool)
    ensures Filter(a + b, p) == Filter(a, p) + Filter(b, p)
    decreases |a|
  {
    if a == [] {
      assert a + b == b;
    } else {
      assert (a + b)[1..] == a[1..] + b;
      FilterConcat(a[1..], b, p);
    }
  }

  lemma {:induction false} MapConcat<T, U>(a: seq<T>, b: seq<T>, f: T -> U)
    ensures Map(a + b, f) == Map(a, f) + Map(b, f)
    decreases |a|
  {
    if a == [] {
      assert a + b == b;
    } else {
      assert (a + b)[1..] == a[1..] + b;
      MapConcat(a[1..], b, f);
    }
  }

  lemma {:induction false} TotalConcat(a: seq<int>, b: seq<int>)
    ensures Total(a + b) == Total(a) + Total(b)
    decreases |a|
  {
    if a == [] {
      assert a + b == b;
    } else {
      assert (a + b)[1..] == a[1..] + b;
      TotalConcat(a[1..], b);
    }
  }

  /** Taking the first element of `a` out of a permutation `b` of `a` leaves a permutation of the rest of `a`. */
  lemma PermutationSplit<T>(a: seq<T>, b: seq<T>) returns (k: nat)
    requires |a| > 0 && multiset(a) == multiset(b)
    ensures k < |b| && b[k] == a[0]
    ensures b == b[..k] + [b[k]] + b[k + 1..]
    ensures multiset(a[1..]) == multiset(b[..k] + b[k + 1..])
  {
    assert a == [a[0]] + a[1..];
    assert a[0] in multiset(b);
    k :| 0 <= k < |b| && b[k] == a[0];
    assert b == b[..k] + [b[k]] + b[k + 1..];
    calc {
      multiset(a[1..]);
      multiset(a) - multiset{a[0]};
      multiset(b) - multiset{b[k]};
      multiset(b[..k] + b[k + 1..]);
    }
  }

  /** Filtering a permutation yields a permutation of the filtered sequence. */
  lemma {:induction false} FilterPermutation<T>(a: seq<T>, b: seq<T>, p: T -> bool)
    requires multiset(a) == multiset(b)
    ensures multiset(Filter(a, p)) == multiset(Filter(b, p))
    decreases |a|
  {
    if a == [] {
      assert b == [];
    } else {
      var k := PermutationSplit(a, b);
      FilterPermutation(a[1..], b[..k] + b[k + 1..], p);
      FilterRemoveOne(b[..k], b[k], b[k + 1..], p);
      FilterRemoveOne([], a[0], a[1..], p);
      assert [] + [a[0]] + a[1..] == a;
      assert [] + a[1..] == a[1..];
    }
  }

  lemma FilterRemoveOne<T>(left: seq<T>, x: T, right: seq<T>, p: T -> bool)
    ensures multiset(Filter(left + [x] + right, p)) ==
            (if p(x) then multiset{x} else multiset{}) + multiset(Filter(left + right, p))
  {
    FilterConcat(left + [x], right, p);
    FilterConcat(left, [x], p);
    FilterConcat(left, right, p);
    assert Filter([x], p) == if p(x) then [x] else [];
  }

  lemma MapRemoveOne<T, U>(left: seq<T>, x: T, right: seq<T>, f: T -> U)
    ensures multiset(Map(left + [x] + right, f)) == multiset{f(x)} + multiset(Map(left + right, f))
  {
    MapConcat(left + [x], right, f);
    MapConcat(left, [x], f);
    MapConcat(left, right, f);
    assert Map([x], f) == [f(x)];
  }

  /** Mapping a permutation yields a permutation of the mapped sequence. */
  lemma {:induction false} MapPermutation<T, U>(a: seq<T>, b: seq<T>, f: T -> U)
    requires multiset(a) == multiset(b)
    ensures multiset(Map(a, f)) == multiset(Map(b, f))
    decreases |a|
  {
    if a == [] {
      assert b == [];
    } else {
      var k := PermutationSplit(a, b);
      MapPermutation(a[1..], b[..k] + b[k + 1..], f);
      MapRemoveOne(b[..k], b[k], b[k + 1..], f);
      MapRemoveOne([], a[0], a[1..], f);
      assert [] + [a[0]] + a[1..] == a;
      assert [] + a[1..] == a[1..];
    }
  }

  /** The sum of a sequence does not depend on the order of its elements. */
  lemma {:induction false} TotalPermutation(a: seq<int>, b: seq<int>)
    requires multiset(a) == multiset(b)
    ensures Total(a) == Total(b)
    decreases |a|
  {
    if a != [] {
      var k := PermutationSplit(a, b);
      TotalPermutation(a[1..], b[..k] + b[k + 1..]);
      TotalConcat(b[..k], [b[k]] + b[k + 1..]);
      TotalConcat([b[k]], b[k + 1..]);
      TotalConcat(b[..k], b[k + 1..]);
      assert b[..k] + ([b[k]] + b[k + 1..]) == b;
    } else {
      assert b == [];
    }
  }

  /** A filter keeps the relative order of what it keeps, so it keeps any order the input had. */
  lemma {:induction false} FilterKeepsOrder<T>(s: seq<T>, p: T -> bool, le: (T, T) -> bool)
    requires forall i, j :: 0 <= i < j < |s| ==> le(s[i], s[j])
    ensures forall i, j :: 0 <= i < j < |Filter(s, p)| ==> le(Filter(s, p)[i], Filter(s, p)[j])
    decreases |s|
  {
    if s != [] {
      FilterKeepsOrder(s[1..], p, le);
      var rest := Filter(s[1..], p);
      forall y | y in rest ensures le(s[0], y) {
        var j :| 0 <= j < |s[1..]| && s[1..][j] == y;
        assert s[j + 1] == y;
      }
    }
  }

  /** The positions of `s` whose element satisfies `p`. */
  function IndicesWhere<T>(s: seq<T>, p: T -> bool): set<int> {
    set i | 0 <= i < |s| && p(s[i])
  }

  /** `s.filter(p).length` is the number of positions of `s` whose element satisfies `p`. */
  lemma {:induction false} FilterLength<T>(s: seq<T>, p: T -> bool)
    ensures |Filter(s, p)| == |IndicesWhere(s, p)|
    decreases |s|
  {
    if s != [] {
      var init, last := s[..|s| - 1], s[|s| - 1];
      assert s == init + [last];
      FilterLength(init, p);
      FilterConcat(init, [last], p);
      assert Filter([last], p) == if p(last) then [last] else [];
      var before := IndicesWhere(init, p);
      var extra: set<int> := if p(last) then {|init|} else {};
      forall i ensures i in IndicesWhere(s, p) <==> i in before + extra {
        if 0 <= i < |init| {
          assert s[i] == init[i];
        }
      }
      assert IndicesWhere(s, p) == before + extra;
      assert |init| !in before;
      assert before * extra == {};
    }
  }
}
