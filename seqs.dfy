/**
 * Sequence operations that the Python code gets from list comprehensions,
 * slicing and `list.sort`: order-preserving filtering, prefixes with Python's
 * slice semantics, and a stable sort in descending order of a key.
 */
module Seqs {

  /** `a` can be obtained from `b` by deleting elements: the order of `a` is the order in `b`. */
  predicate IsSubsequence<T(==)>(a: seq<T>, b: seq<T>)
    decreases |b|
  {
    a == [] || (b != [] && if a[0] == b[0] then IsSubsequence(a[1..], b[1..]) else IsSubsequence(a, b[1..]))
  }

  /** How many elements of `s` satisfy `p`. */
  function Count<T>(s: seq<T>, p: T -> bool): nat {
    if s == [] then 0 else (if p(s[0]) then 1 else 0) + Count(s[1..], p)
  }

  /**
   * `[x for x in s if p(x)]`: an order-preserving subsequence of elements
   * satisfying `p`, as long as the number of such elements in `s`, which
   * `FilterUnique` shows can only be this one.
   */
  function Filter<T(==)>(s: seq<T>, p: T -> bool): (r: seq<T>)
    ensures |r| == Count(s, p)
    ensures forall i :: 0 <= i < |r| ==> p(r[i])
    ensures IsSubsequence(r, s)
  {
    if s == [] then []
    else if p(s[0]) then [s[0]] + Filter(s[1..], p)
    else Filter(s[1..], p)
  }

  /** An element is kept iff it occurs in the input and satisfies `p`. */
  lemma {:induction false} FilterMembers<T>(s: seq<T>, p: T -> bool, x: T)
    ensures x in Filter(s, p) <==> x in s && p(x)
  {
    if s != [] {
      FilterMembers(s[1..], p, x);
      assert x in s <==> x == s[0] || x in s[1..];
    }
  }

  /** A subsequence made of elements satisfying `p` is no longer than the number of them. */
  lemma {:induction false} SubsequenceCount<T>(r: seq<T>, s: seq<T>, p: T -> bool)
    requires IsSubsequence(r, s) && forall i :: 0 <= i < |r| ==> p(r[i])
    ensures |r| <= Count(s, p)
  {
    if r != [] {
      if r[0] == s[0] {
        SubsequenceCount(r[1..], s[1..], p);
      } else {
        SubsequenceCount(r, s[1..], p);
      }
    }
  }

  /**
   * `Filter` is the only order-preserving subsequence of elements satisfying
   * `p` that has as many elements as satisfy `p`.
   */
  lemma {:induction false} FilterUnique<T>(r: seq<T>, s: seq<T>, p: T -> bool)
    requires IsSubsequence(r, s) && forall i :: 0 <= i < |r| ==> p(r[i])
    requires |r| == Count(s, p)
    ensures r == Filter(s, p)
  {
    if s != [] {
      if r != [] && r[0] == s[0] {
        FilterUnique(r[1..], s[1..], p);
        assert r == [r[0]] + r[1..];
      } else if p(s[0]) {
        SubsequenceCount(r, s[1..], p);
        assert false;
      } else {
        FilterUnique(r, s[1..], p);
      }
    }
  }

  /** Appending one element, the step a filtering loop takes. */
  lemma {:induction false} FilterSnoc<T>(s: seq<T>, x: T, p: T -> bool)
    ensures Filter(s + [x], p) == Filter(s, p) + (if p(x) then [x] else [])
  {
    if s == [] {
      assert s + [x] == [x];
    } else {
      assert (s + [x])[1..] == s[1..] + [x];
      FilterSnoc(s[1..], x, p);
    }
  }

  /** Filtering one more element of a prefix. */
  lemma FilterStep<T>(s: seq<T>, i: int, p: T -> bool)
    requires 0 <= i < |s|
    ensures Filter(s[..i + 1], p) == Filter(s[..i], p) + (if p(s[i]) then [s[i]] else [])
  {
    assert s[..i + 1] == s[..i] + [s[i]];
    FilterSnoc(s[..i], s[i], p);
  }

  /** `s[:m]` for any Python integer `m` (a negative `m` counts from the end). */
  function Prefix<T>(s: seq<T>, m: int): (r: seq<T>)
    ensures |r| <= |s| && r == s[..|r|]
    ensures m >= 0 ==> |r| == if m <= |s| then m else |s|
    ensures m < 0 ==> |r| == if |s| + m >= 0 then |s| + m else 0
  {
    if m >= 0 then (if m <= |s| then s[..m] else s)
    else if |s| + m >= 0 then s[..|s| + m]
    else []
  }

  /** Non-increasing in `key`: best first. */
  ghost predicate NonIncreasing<T>(s: seq<T>, key: T -> real) {
    forall i, j :: 0 <= i < j < |s| ==> key(s[i]) >= key(s[j])
  }

  /** A prefix keeps the order of a sorted sequence and takes its elements from it. */
  lemma PrefixKeeps<T>(s: seq<T>, key: T -> real, m: int)
    ensures NonIncreasing(s, key) ==> NonIncreasing(Prefix(s, m), key)
    ensures multiset(Prefix(s, m)) <= multiset(s)
  {
    var r := Prefix(s, m);
    assert s == r + s[|r|..];
    assert multiset(s) == multiset(r) + multiset(s[|r|..]);
  }

  /**
   * Inserts `x` in front of the first element whose key is not larger than
   * its own, so that `x` precedes the elements of equal key already there.
   */
  function Insert<T>(x: T, s: seq<T>, key: T -> real): (r: seq<T>)
    ensures |r| == |s| + 1
    ensures multiset(r) == multiset(s) + multiset{x}
    ensures r[0] == x || (s != [] && r[0] == s[0])
  {
    if s == [] || key(x) >= key(s[0]) then [x] + s
    else
      assert s == [s[0]] + s[1..];
      [s[0]] + Insert(x, s[1..], key)
  }

  /** Everything in the result of an insertion is the inserted element or was already there. */
  lemma InsertMember<T>(x: T, s: seq<T>, key: T -> real, y: T)
    requires y in Insert(x, s, key)
    ensures y == x || y in s
  {
    assert y in multiset(Insert(x, s, key));
  }

  /** Inserting into a sorted sequence keeps it sorted. */
  lemma {:induction false} InsertSorted<T>(x: T, s: seq<T>, key: T -> real)
    requires NonIncreasing(s, key)
    ensures NonIncreasing(Insert(x, s, key), key)
  {
    if s != [] && key(x) < key(s[0]) {
      var t := Insert(x, s[1..], key);
      var r := [s[0]] + t;
      InsertSorted(x, s[1..], key);
      assert Insert(x, s, key) == r;
      forall a, b | 0 <= a < b < |r| ensures key(r[a]) >= key(r[b]) {
        assert r[b] == t[b - 1];
        if a == 0 {
          InsertMember(x, s[1..], key, t[b - 1]);
          if t[b - 1] != x {
            var k :| 0 <= k < |s| - 1 && s[1..][k] == t[b - 1];
            assert s[1..][k] == s[k + 1];
          }
        } else {
          assert r[a] == t[a - 1];
        }
      }
    }
  }


  /**
   * `sorted(s, key=key, reverse=True)`: Python's sort is stable also with
   * `reverse=True`, so elements of equal key keep their relative order.
   */
  function SortDesc<T>(s: seq<T>, key: T -> real): (r: seq<T>)
    ensures |r| == |s|
    ensures multiset(r) == multiset(s)
    ensures NonIncreasing(r, key)
  {
    if s == [] then []
    else
      assert s == [s[0]] + s[1..];
      InsertSorted(s[0], SortDesc(s[1..], key), key);
      Insert(s[0], SortDesc(s[1..], key), key)
  }

  /** The elements of `s` whose key is `k`, in order. */
  function WithKey<T>(s: seq<T>, key: T -> real, k: real): seq<T> {
    if s == [] then []
    else if key(s[0]) == k then [s[0]] + WithKey(s[1..], key, k)
    else WithKey(s[1..], key, k)
  }

  lemma {:induction false} InsertWithKey<T>(x: T, s: seq<T>, key: T -> real, k: real)
    ensures WithKey(Insert(x, s, key), key, k) == (if key(x) == k then [x] else []) + WithKey(s, key, k)
  {
    if s == [] || key(x) >= key(s[0]) {
      assert ([x] + s)[1..] == s;
    } else {
      var t := Insert(x, s[1..], key);
      assert ([s[0]] + t)[1..] == t;
      InsertWithKey(x, s[1..], key, k);
    }
  }

  /** Stability: for every key value, the elements carrying it appear in the sorted output in their input order. */
  lemma {:induction false} SortDescStable<T>(s: seq<T>, key: T -> real, k: real)
    ensures WithKey(SortDesc(s, key), key, k) == WithKey(s, key, k)
  {
    if s != [] {
      SortDescStable(s[1..], key, k);
      InsertWithKey(s[0], SortDesc(s[1..], key), key, k);
    }
  }

  /**
   * Sorting once and truncating keeps the best: nothing that was cut off
   * ranks above anything that was kept.
   */
  lemma TopIsBest<T>(s: seq<T>, key: T -> real, m: int)
    ensures var kept := Prefix(SortDesc(s, key), m);
      forall x, y :: x in multiset(s) - multiset(kept) && y in kept ==> key(y) >= key(x)
  {
    var sorted := SortDesc(s, key);
    var kept := Prefix(sorted, m);
    var rest := sorted[|kept|..];
    assert sorted == kept + rest;
    assert multiset(s) == multiset(kept) + multiset(rest);
    forall x, y | x in multiset(s) - multiset(kept) && y in kept
      ensures key(y) >= key(x)
    {
      assert x in multiset(rest);
      var j :| 0 <= j < |rest| && rest[j] == x;
      var i :| 0 <= i < |kept| && kept[i] == y;
      assert sorted[i] == y && sorted[|kept| + j] == x;
    }
  }

  /** Sum of a sequence of naturals. */
  function SumNat(xs: seq<nat>): nat {
    if xs == [] then 0 else xs[0] + SumNat(xs[1..])
  }

  /** Sum of a sequence of reals. */
  function SumReal(xs: seq<real>): real {
    if xs == [] then 0.0 else xs[0] + SumReal(xs[1..])
  }

  lemma {:induction false} SumNatSnoc(xs: seq<nat>, x: nat)
    ensures SumNat(xs + [x]) == SumNat(xs) + x
  {
    if xs == [] {
      assert xs + [x] == [x];
    } else {
      assert (xs + [x])[1..] == xs[1..] + [x];
      SumNatSnoc(xs[1..], x);
    }
  }

  lemma {:induction false} SumRealSnoc(xs: seq<real>, x: real)
    ensures SumReal(xs + [x]) == SumReal(xs) + x
  {
    if xs == [] {
      assert xs + [x] == [x];
    } else {
      assert (xs + [x])[1..] == xs[1..] + [x];
      SumRealSnoc(xs[1..], x);
    }
  }

  /** `max(xs)`: Python raises on an empty sequence, so the callers test for it first. */
  function MaxReal(xs: seq<real>): (m: real)
    requires xs != []
    ensures m in xs
    ensures forall i :: 0 <= i < |xs| ==> xs[i] <= m
  {
    if |xs| == 1 then xs[0]
    else
      var rest := MaxReal(xs[1..]);
      assert forall i :: 1 <= i < |xs| ==> xs[i] == xs[1..][i - 1];
      if xs[0] >= rest then xs[0] else rest
  }

  /** The cardinality of the set of elements of a duplicate-free sequence is its length. */
  lemma {:induction false} DistinctCardinality<T>(s: seq<T>)
    requires forall i, j :: 0 <= i < j < |s| ==> s[i] != s[j]
    ensures |set i | 0 <= i < |s| :: s[i]| == |s|
  {
    if s != [] {
      var init := s[..|s| - 1];
      DistinctCardinality(init);
      var a := set i | 0 <= i < |init| :: init[i];
      var b := set i | 0 <= i < |s| :: s[i];
      assert b == a + {s[|s| - 1]};
      assert s[|s| - 1] !in a;
    }
  }

  lemma {:induction false} CountSnoc<T>(s: seq<T>, x: T, p: T -> bool)
    ensures Count(s + [x], p) == Count(s, p) + (if p(x) then 1 else 0)
  {
    if s == [] {
      assert s + [x] == [x];
    } else {
      assert (s + [x])[1..] == s[1..] + [x];
      CountSnoc(s[1..], x, p);
    }
  }

  /** The sum of `f` over the elements satisfying `p`, accumulated left to right. */
  function SumNatWhere<T>(s: seq<T>, p: T -> bool, f: T -> nat): nat {
    if s == [] then 0
    else SumNatWhere(s[..|s| - 1], p, f) + (if p(s[|s| - 1]) then f(s[|s| - 1]) else 0)
  }

  /** The sum of `f` over the elements satisfying `p`, accumulated left to right. */
  function SumRealWhere<T>(s: seq<T>, p: T -> bool, f: T -> real): real {
    if s == [] then 0.0
    else SumRealWhere(s[..|s| - 1], p, f) + (if p(s[|s| - 1]) then f(s[|s| - 1]) else 0.0)
  }

  /** `{f(x) for x in s}`. */
  function Image<T, U>(s: seq<T>, f: T -> U): set<U> {
    if s == [] then {} else Image(s[..|s| - 1], f) + {f(s[|s| - 1])}
  }

  lemma {:induction false} ImageAt<T, U>(s: seq<T>, f: T -> U, y: U)
    ensures y in Image(s, f) <==> exists j :: 0 <= j < |s| && f(s[j]) == y
  {
    if s != [] {
      var init := s[..|s| - 1];
      ImageAt(init, f, y);
      if exists j :: 0 <= j < |init| && f(init[j]) == y {
        var j :| 0 <= j < |init| && f(init[j]) == y;
        assert s[j] == init[j];
      }
      if exists j :: 0 <= j < |s| && f(s[j]) == y {
        var j :| 0 <= j < |s| && f(s[j]) == y;
        if j < |init| {
          assert init[j] == s[j];
        }
      }
    }
  }

  /** There are no more distinct images than elements, and at least one when there is an element. */
  lemma {:induction false} ImageSize<T, U>(s: seq<T>, f: T -> U)
    ensures |Image(s, f)| <= |s|
    ensures s != [] ==> 1 <= |Image(s, f)|
  {
    if s != [] {
      ImageSize(s[..|s| - 1], f);
    }
  }

  /** Nothing satisfies `p`: nothing is counted and nothing summed. */
  lemma {:induction false} NoneSatisfy<T>(s: seq<T>, p: T -> bool, f: T -> real, g: T -> nat)
    requires forall j :: 0 <= j < |s| ==> !p(s[j])
    ensures Count(s, p) == 0 && SumRealWhere(s, p, f) == 0.0 && SumNatWhere(s, p, g) == 0
  {
    if s != [] {
      assert forall j :: 0 <= j < |s[1..]| ==> s[1..][j] == s[j + 1];
      assert forall j :: 0 <= j < |s| - 1 ==> s[..|s| - 1][j] == s[j];
      NoneSatisfy(s[1..], p, f, g);
      NoneSatisfy(s[..|s| - 1], p, f, g);
    }
  }
}
