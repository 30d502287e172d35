/**
 * Python dictionaries as insertion-ordered association lists. The order is
 * observable in two places of the model: the reverse speaker map, where the
 * last key mapping to a role wins, and the per-speaker statistics, whose
 * entries appear in order of first appearance.
 */
module Dicts {
  import opened Wrappers

  type Dict<K, V> = seq<(K, V)>

  function KeySet<K, V>(d: Dict<K, V>): set<K> {
    if d == [] then {} else {d[0].0} + KeySet(d[1..])
  }

  /** No key occurs twice, as in every Python dict. */
  ghost predicate UniqueKeys<K, V>(d: Dict<K, V>) {
    d == [] || (d[0].0 !in KeySet(d[1..]) && UniqueKeys(d[1..]))
  }

  lemma {:induction false} KeySetAt<K, V>(d: Dict<K, V>, k: K)
    ensures k in KeySet(d) <==> exists i :: 0 <= i < |d| && d[i].0 == k
  {
    if d != [] {
      KeySetAt(d[1..], k);
      if exists i :: 0 <= i < |d[1..]| && d[1..][i].0 == k {
        var i :| 0 <= i < |d[1..]| && d[1..][i].0 == k;
        assert d[i + 1].0 == k;
      }
      if exists i :: 0 <= i < |d| && d[i].0 == k {
        var i :| 0 <= i < |d| && d[i].0 == k;
        if i > 0 {
          assert d[1..][i - 1].0 == k;
        }
      }
    }
  }

  lemma {:induction false} KeySetSnoc<K, V>(d: Dict<K, V>, x: (K, V))
    ensures KeySet(d + [x]) == KeySet(d) + {x.0}
  {
    if d == [] {
      assert d + [x] == [x];
    } else {
      assert (d + [x])[1..] == d[1..] + [x];
      KeySetSnoc(d[1..], x);
    }
  }

  /** `d.get(k)`; `None` when `k` is not a key. */
  function Lookup<K(==), V>(d: Dict<K, V>, k: K): (r: Option<V>)
    ensures r.None? <==> k !in KeySet(d)
  {
    if d == [] then None
    else if d[0].0 == k then Some(d[0].1)
    else Lookup(d[1..], k)
  }

  /** In a dict, the value `Lookup` finds is the one stored with the key, wherever it stands. */
  lemma {:induction false} LookupAt<K, V>(d: Dict<K, V>, i: nat)
    requires UniqueKeys(d) && i < |d|
    ensures Lookup(d, d[i].0) == Some(d[i].1)
  {
    if i > 0 {
      LookupAt(d[1..], i - 1);
      assert d[1..][i - 1] == d[i];
      KeySetAt(d[1..], d[i].0);
    }
  }

  /** `Lookup` finds the first entry carrying the key. */
  lemma {:induction false} LookupFirst<K, V>(d: Dict<K, V>, i: nat)
    requires i < |d| && forall j :: 0 <= j < i ==> d[j].0 != d[i].0
    ensures Lookup(d, d[i].0) == Some(d[i].1)
  {
    if i > 0 {
      assert d[1..][i - 1] == d[i];
      LookupFirst(d[1..], i - 1);
    }
  }

  /**
   * `d[k] = v`: the value of an existing key is replaced where it stands,
   * a new key is appended at the end.
   */
  function Put<K(==), V>(d: Dict<K, V>, k: K, v: V): (r: Dict<K, V>)
    ensures KeySet(r) == KeySet(d) + {k}
    ensures Lookup(r, k) == Some(v)
    ensures |r| == if k in KeySet(d) then |d| else |d| + 1
    ensures k !in KeySet(d) ==> r == d + [(k, v)]
  {
    if d == [] then [(k, v)]
    else if d[0].0 == k then
      var r := [(k, v)] + d[1..];
      assert r[1..] == d[1..];
      r
    else
      var t := Put(d[1..], k, v);
      var r := [d[0]] + t;
      assert r[1..] == t;
      r
  }

  lemma {:induction false} PutUniqueKeys<K, V>(d: Dict<K, V>, k: K, v: V)
    requires UniqueKeys(d)
    ensures UniqueKeys(Put(d, k, v))
  {
    if d != [] && d[0].0 != k {
      PutUniqueKeys(d[1..], k, v);
      assert ([d[0]] + Put(d[1..], k, v))[1..] == Put(d[1..], k, v);
    } else if d != [] {
      assert ([(k, v)] + d[1..])[1..] == d[1..];
    }
  }

  /** Putting one key leaves every other key's value as it was. */
  lemma {:induction false} LookupPutOther<K, V>(d: Dict<K, V>, k: K, v: V, k': K)
    requires k' != k
    ensures Lookup(Put(d, k, v), k') == Lookup(d, k')
  {
    if d != [] && d[0].0 != k {
      LookupPutOther(d[1..], k, v, k');
      assert ([d[0]] + Put(d[1..], k, v))[1..] == Put(d[1..], k, v);
    } else if d != [] {
      assert ([(k, v)] + d[1..])[1..] == d[1..];
    }
  }

  /** `dict(pairs)`: the pairs inserted one after another. */
  function FromPairs<K(==), V>(pairs: seq<(K, V)>): (r: Dict<K, V>)
    ensures UniqueKeys(r)
    ensures KeySet(r) == KeySet(pairs)
  {
    if pairs == [] then []
    else
      var init := pairs[..|pairs| - 1];
      var last := pairs[|pairs| - 1];
      assert pairs == init + [last];
      KeySetSnoc(init, last);
      PutUniqueKeys(FromPairs(init), last.0, last.1);
      Put(FromPairs(init), last.0, last.1)
  }

  /** Appending an entry keeps the keys unique exactly when its key is new. */
  lemma {:induction false} UniqueKeysSnoc<K, V>(d: Dict<K, V>, x: (K, V))
    ensures UniqueKeys(d + [x]) <==> UniqueKeys(d) && x.0 !in KeySet(d)
  {
    if d == [] {
      assert d + [x] == [x];
    } else {
      assert (d + [x])[1..] == d[1..] + [x];
      UniqueKeysSnoc(d[1..], x);
      KeySetSnoc(d[1..], x);
    }
  }

  /** Inserting the pairs of a dict one by one rebuilds that dict. */
  lemma {:induction false} FromPairsUnique<K, V>(d: Dict<K, V>)
    requires UniqueKeys(d)
    ensures FromPairs(d) == d
  {
    if d != [] {
      var init := d[..|d| - 1];
      var last := d[|d| - 1];
      assert d == init + [last];
      UniqueKeysSnoc(init, last);
      FromPairsUnique(init);
    }
  }

  /** The key `k` occurs in `pairs` last at position `i`, there carrying `v`. */
  ghost predicate LastPairAt<K, V>(pairs: seq<(K, V)>, i: int, k: K, v: V) {
    0 <= i < |pairs| && pairs[i] == (k, v) && forall j :: i < j < |pairs| ==> pairs[j].0 != k
  }

  /** Inserting the same key again overwrites: the value of a key is that of its last pair. */
  lemma {:induction false} FromPairsLastWins<K, V>(pairs: seq<(K, V)>, k: K, v: V)
    ensures Lookup(FromPairs(pairs), k) == Some(v) <==> exists i :: LastPairAt(pairs, i, k, v)
  {
    if pairs != [] {
      var n := |pairs| - 1;
      var init := pairs[..n];
      var last := pairs[n];
      FromPairsLastWins(init, k, v);
      if last.0 == k {
        if Lookup(FromPairs(pairs), k) == Some(v) {
          assert LastPairAt(pairs, n, k, v);
        }
        if exists i :: LastPairAt(pairs, i, k, v) {
          var i :| LastPairAt(pairs, i, k, v);
          assert i == n;
        }
      } else {
        LookupPutOther(FromPairs(init), last.0, last.1, k);
        if exists i :: LastPairAt(init, i, k, v) {
          var i :| LastPairAt(init, i, k, v);
          assert LastPairAt(pairs, i, k, v);
        }
        if exists i :: LastPairAt(pairs, i, k, v) {
          var i :| LastPairAt(pairs, i, k, v);
          assert LastPairAt(init, i, k, v);
        }
      }
    }
  }

  /** The pairs of `d` with key and value exchanged. */
  function Swapped<K, V>(d: Dict<K, V>): (r: seq<(V, K)>)
    ensures |r| == |d| && forall i :: 0 <= i < |d| ==> r[i] == (d[i].1, d[i].0)
  {
    seq(|d|, i requires 0 <= i < |d| => (d[i].1, d[i].0))
  }

  /** `{v: k for k, v in d.items()}`. */
  function Invert<K(==), V(==)>(d: Dict<K, V>): (r: Dict<V, K>)
    ensures UniqueKeys(r)
  {
    FromPairs(Swapped(d))
  }

  /** `v` is the value of `d[i]` and of no later entry. */
  ghost predicate LastWithValue<K, V>(d: Dict<K, V>, i: int, v: V) {
    0 <= i < |d| && d[i].1 == v && forall j :: i < j < |d| ==> d[j].1 != v
  }

  /**
   * The inverse maps a value to the LAST key carrying it in `d`, and is
   * undefined exactly on the values that no key carries.
   */
  lemma InvertLastWins<K, V>(d: Dict<K, V>, v: V, k: K)
    ensures Lookup(Invert(d), v) == Some(k) <==> exists i :: LastWithValue(d, i, v) && d[i].0 == k
    ensures Lookup(Invert(d), v).None? <==> forall i :: 0 <= i < |d| ==> d[i].1 != v
  {
    var sw := Swapped(d);
    FromPairsLastWins(sw, v, k);
    forall i ensures LastPairAt(sw, i, v, k) <==> LastWithValue(d, i, v) && d[i].0 == k {
      if 0 <= i < |d| {
        assert sw[i] == (d[i].1, d[i].0);
      }
    }
    KeySetAt(sw, v);
    if exists i :: 0 <= i < |d| && d[i].1 == v {
      var i :| 0 <= i < |d| && d[i].1 == v;
      assert sw[i].0 == v;
    }
  }

  /** The sum of `f` over the values of `d`. */
  function SumValues<K, V>(d: Dict<K, V>, f: V -> nat): nat {
    if d == [] then 0 else f(d[0].1) + SumValues(d[1..], f)
  }

  /** Overwriting a value changes the sum by the difference; adding a key adds its value. */
  lemma {:induction false} SumValuesPut<K, V>(d: Dict<K, V>, k: K, v: V, f: V -> nat)
    ensures SumValues(Put(d, k, v), f) + (if k in KeySet(d) then f(Lookup(d, k).value) else 0) == SumValues(d, f) + f(v)
  {
    if d != [] {
      if d[0].0 == k {
        assert ([(k, v)] + d[1..])[1..] == d[1..];
      } else {
        SumValuesPut(d[1..], k, v, f);
        assert ([d[0]] + Put(d[1..], k, v))[1..] == Put(d[1..], k, v);
      }
    }
  }

  /** Two dicts with the same keys in the same places have the same key set, and are dicts alike. */
  lemma {:induction false} SameKeys<K, V, W>(d: Dict<K, V>, e: Dict<K, W>)
    requires |d| == |e| && forall j :: 0 <= j < |d| ==> d[j].0 == e[j].0
    ensures KeySet(d) == KeySet(e)
    ensures UniqueKeys(d) <==> UniqueKeys(e)
  {
    if d != [] {
      SameKeys(d[1..], e[1..]);
    }
  }

  /** Sums agree on dicts whose values agree under `f` place by place. */
  lemma {:induction false} SumValuesPointwise<K, V, W>(d: Dict<K, V>, f: V -> nat, e: Dict<K, W>, g: W -> nat)
    requires |d| == |e| && forall j :: 0 <= j < |d| ==> f(d[j].1) == g(e[j].1)
    ensures SumValues(d, f) == SumValues(e, g)
  {
    if d != [] {
      SumValuesPointwise(d[1..], f, e[1..], g);
    }
  }

  /** A dict has as many entries as keys: `len(d)`. */
  lemma {:induction false} UniqueKeysCard<K, V>(d: Dict<K, V>)
    requires UniqueKeys(d)
    ensures |KeySet(d)| == |d|
  {
    if d != [] {
      UniqueKeysCard(d[1..]);
    }
  }
}
