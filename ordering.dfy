/**
 * `Array.prototype.sort` with a descending comparator (`(a, b) => key(b) - key(a)`)
 * as the engine uses it on tokens, NFT collections and contract call counts.
 * JavaScript's sort is stable, so the model is a stable insertion sort: equal
 * keys keep their input order, which decides the tie order of the top-5 list.
 */
module Ordering {

  /** Non-increasing by `key`. */
  ghost predicate SortedDesc<T>(s: seq<T>, key: T -> real)
  {
    forall i, j :: 0 <= i < j < |s| ==> key(s[i]) >= key(s[j])
  }

  /** The elements of `s` whose key is `v`, in order. */
  function WithKey<T>(s: seq<T>, key: T -> real, v: real): seq<T>
  {
    if s == [] then []
    else WithKey(s[..|s| - 1], key, v) + (if key(s[|s| - 1]) == v then [s[|s| - 1]] else [])
  }

  /** Places `x` after every element whose key is at least `key(x)`. */
  function InsertDesc<T>(s: seq<T>, x: T, key: T -> real): seq<T>
  {
    if s == [] then [x]
    else if key(s[|s| - 1]) >= key(x) then s + [x]
    else InsertDesc(s[..|s| - 1], x, key) + [s[|s| - 1]]
  }

  /** Stable sort, largest key first. */
  function SortDesc<T>(s: seq<T>, key: T -> real): seq<T>
  {
    if s == [] then [] else InsertDesc(SortDesc(s[..|s| - 1], key), s[|s| - 1], key)
  }

  /** `list.slice(0, n)`. */
  function Take<T>(s: seq<T>, n: nat): (r: seq<T>)
    ensures |r| <= n && |r| <= |s|
    ensures |s| <= n ==> r == s
    ensures |s| > n ==> |r| == n
    ensures r == s[..|r|]
  {
    if |s| <= n then s else s[..n]
  }

  lemma {:induction false} InsertDescPermutes<T>(s: seq<T>, x: T, key: T -> real)
    ensures multiset(InsertDesc(s, x, key)) == multiset(s) + multiset{x}
  {
    if s != [] && key(s[|s| - 1]) < key(x) {
      assert s == s[..|s| - 1] + [s[|s| - 1]];
      InsertDescPermutes(s[..|s| - 1], x, key);
    }
  }

  lemma {:induction false} InsertDescSorted<T>(s: seq<T>, x: T, key: T -> real)
    requires SortedDesc(s, key)
    ensures SortedDesc(InsertDesc(s, x, key), key)
  {
    if s != [] && key(s[|s| - 1]) < key(x) {
      var init, last := s[..|s| - 1], s[|s| - 1];
      InsertDescSorted(init, x, key);
      InsertDescPermutes(init, x, key);
      var m := InsertDesc(init, x, key);
      var r := m + [last];
      forall i | 0 <= i < |m| ensures key(m[i]) >= key(last) {
        assert m[i] in multiset(m);
        if m[i] != x {
          assert m[i] in multiset(init);
          var k :| 0 <= k < |init| && init[k] == m[i];
          assert key(s[k]) >= key(s[|s| - 1]);
        }
      }
      assert r == InsertDesc(s, x, key);
    }
  }

  lemma {:induction false} InsertDescStable<T>(s: seq<T>, x: T, key: T -> real, v: real)
    ensures WithKey(InsertDesc(s, x, key), key, v) == WithKey(s, key, v) + (if key(x) == v then [x] else [])
  {
    if s == [] {
      assert [x][..0] == [];
    } else if key(s[|s| - 1]) >= key(x) {
      var r := s + [x];
      assert r[..|r| - 1] == s;
    } else {
      var init, last := s[..|s| - 1], s[|s| - 1];
      InsertDescStable(init, x, key, v);
      var r := InsertDesc(init, x, key) + [last];
      assert r[..|r| - 1] == InsertDesc(init, x, key);
      assert key(x) != key(last);
    }
  }

  lemma {:induction false} SortDescFacts<T>(s: seq<T>, key: T -> real)
    ensures SortedDesc(SortDesc(s, key), key)
    ensures multiset(SortDesc(s, key)) == multiset(s)
    ensures forall v :: WithKey(SortDesc(s, key), key, v) == WithKey(s, key, v)
  {
    if s != [] {
      var init, last := s[..|s| - 1], s[|s| - 1];
      assert s == init + [last];
      SortDescFacts(init, key);
      InsertDescSorted(SortDesc(init, key), last, key);
      InsertDescPermutes(SortDesc(init, key), last, key);
      forall v ensures WithKey(SortDesc(s, key), key, v) == WithKey(s, key, v) {
        InsertDescStable(SortDesc(init, key), last, key, v);
      }
    }
  }

  /** The sort is a permutation of its input, in descending key order, and stable. */
  lemma SortDescIsStableSort<T>(s: seq<T>, key: T -> real)
    ensures |SortDesc(s, key)| == |s|
    ensures SortedDesc(SortDesc(s, key), key)
    ensures multiset(SortDesc(s, key)) == multiset(s)
    ensures forall v :: WithKey(SortDesc(s, key), key, v) == WithKey(s, key, v)
  {
    SortDescFacts(s, key);
    assert |multiset(SortDesc(s, key))| == |multiset(s)|;
  }
}
