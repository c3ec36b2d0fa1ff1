/**
 * `Array.prototype.sort` with a comparator that subtracts two integer keys,
 * `(a, b) => key(a) - key(b)`. The sort is stable (elements with equal keys
 * keep their relative order) and works in place on the array it is called on.
 *
 * A stable sort by a key is unique, so the result is specified by one
 * reference definition, `SortByKey`: insertion of each element, left to
 * right, after every earlier element whose key is not larger.
 */
module StableSort {
  import opened Common

  predicate SortedBy<T>(s: seq<T>, key: T -> int)
  {
    forall i, j :: 0 <= i < j < |s| ==> key(s[i]) <= key(s[j])
  }

  /** The filter that keeps the elements with key `v`. */
  function HasKey<T>(key: T -> int, v: int): T -> bool
  {
    x => key(x) == v
  }

  /** Inserts `x` after the last element whose key is at most `key(x)`, scanning from the right. */
  function InsertBy<T>(x: T, s: seq<T>, key: T -> int): (r: seq<T>)
    ensures |r| == |s| + 1
  {
    if s == [] || key(s[|s| - 1]) <= key(x) then s + [x]
    else InsertBy(x, s[..|s| - 1], key) + [s[|s| - 1]]
  }

  /** The stable sort of `s` by ascending key. */
  function SortByKey<T>(s: seq<T>, key: T -> int): (r: seq<T>)
    ensures |r| == |s|
  {
    if s == [] then [] else InsertBy(s[|s| - 1], SortByKey(s[..|s| - 1], key), key)
  }

  // ---------------------------------------------------------------------
  // The in-place sort

  /** Sorts `a` in place by ascending key; equal keys keep their order. */
  method SortInPlace<T>(a: array<T>, key: T -> int)
    modifies a
    ensures a[..] == SortByKey(old(a[..]), key)
  {
    ghost var s := a[..];
    var i := 0;
    while i < a.Length
      invariant 0 <= i <= a.Length
      invariant a[..i] == SortByKey(s[..i], key)
      invariant a[i..] == s[i..]
    {
      assert s[..i + 1][..i] == s[..i];
      InsertStep(a, i, key);
      i := i + 1;
    }
    assert s[..a.Length] == s;
    assert a[..a.Length] == a[..];
  }

  /** Moves `a[i]` left past the larger keys of `a[..i]`, shifting them one place right. */
  method InsertStep<T>(a: array<T>, i: int, key: T -> int)
    requires 0 <= i < a.Length
    modifies a
    ensures a[..i + 1] == InsertBy(old(a[i]), old(a[..i]), key)
    ensures a[i + 1..] == old(a[i + 1..])
  {
    ghost var prefix := a[..i];
    ghost var rest := a[i + 1..];
    var x := a[i];
    var j := i;
    while j > 0 && key(a[j - 1]) > key(x)
      invariant 0 <= j <= i
      invariant forall k :: 0 <= k < j ==> a[k] == prefix[k]
      invariant forall k :: j < k <= i ==> a[k] == prefix[k - 1]
      invariant forall k :: j <= k < i ==> key(prefix[k]) > key(x)
      invariant a[i + 1..] == rest
    {
      a[j] := a[j - 1];
      j := j - 1;
    }
    a[j] := x;
    ghost var inserted := prefix[..j] + [x] + prefix[j..];
    forall k | 0 <= k <= i ensures a[k] == inserted[k] {
      if k > j {
        assert inserted[k] == prefix[k - 1];
      }
    }
    assert a[..i + 1] == inserted;
    InsertAt(x, prefix, j, key);
  }

  /** `InsertBy` puts `x` at the first position after which every key is larger. */
  lemma {:induction false} InsertAt<T>(x: T, s: seq<T>, j: nat, key: T -> int)
    requires j <= |s|
    requires j == 0 || key(s[j - 1]) <= key(x)
    requires forall k :: j <= k < |s| ==> key(s[k]) > key(x)
    ensures InsertBy(x, s, key) == s[..j] + [x] + s[j..]
  {
    if j < |s| {
      var n := |s| - 1;
      var init := s[..n];
      InsertAt(x, init, j, key);
      assert init[..j] == s[..j];
      assert s[j..] == init[j..] + [s[n]];
    } else {
      assert s[..j] == s;
    }
  }

  // ---------------------------------------------------------------------
  // What the sort guarantees

  /** Inserting never adds a key above a bound that `x` and all of `s` respect. */
  lemma {:induction false} InsertByBound<T>(x: T, s: seq<T>, key: T -> int, b: int)
    requires key(x) <= b && forall i :: 0 <= i < |s| ==> key(s[i]) <= b
    ensures forall i :: 0 <= i < |InsertBy(x, s, key)| ==> key(InsertBy(x, s, key)[i]) <= b
  {
    if s != [] && key(s[|s| - 1]) > key(x) {
      InsertByBound(x, s[..|s| - 1], key, b);
    }
  }

  lemma {:induction false} InsertBySorted<T>(x: T, s: seq<T>, key: T -> int)
    requires SortedBy(s, key)
    ensures SortedBy(InsertBy(x, s, key), key)
  {
    if s != [] && key(s[|s| - 1]) > key(x) {
      var n := |s| - 1;
      InsertBySorted(x, s[..n], key);
      InsertByBound(x, s[..n], key, key(s[n]));
    }
  }

  lemma {:induction false} InsertByPermutes<T>(x: T, s: seq<T>, key: T -> int)
    ensures multiset(InsertBy(x, s, key)) == multiset(s) + multiset{x}
  {
    if s != [] && key(s[|s| - 1]) > key(x) {
      var n := |s| - 1;
      InsertByPermutes(x, s[..n], key);
      assert s == s[..n] + [s[n]];
    }
  }

  /** The result is in ascending key order and is a permutation of the input. */
  lemma {:induction false} SortByKeySorted<T>(s: seq<T>, key: T -> int)
    ensures SortedBy(SortByKey(s, key), key)
    ensures multiset(SortByKey(s, key)) == multiset(s)
  {
    if s != [] {
      var n := |s| - 1;
      SortByKeySorted(s[..n], key);
      InsertBySorted(s[n], SortByKey(s[..n], key), key);
      InsertByPermutes(s[n], SortByKey(s[..n], key), key);
      assert s == s[..n] + [s[n]];
    }
  }

  /** A filter of a sorted sequence is sorted. */
  lemma {:induction false} FilterSorted<T>(s: seq<T>, p: T -> bool, key: T -> int)
    requires SortedBy(s, key)
    ensures SortedBy(Filter(s, p), key)
  {
    if s != [] {
      var n := |s| - 1;
      var init := Filter(s[..n], p);
      FilterSorted(s[..n], p, key);
      if p(s[n]) {
        forall i | 0 <= i < |init| ensures key(init[i]) <= key(s[n]) {
          var j :| 0 <= j < n && s[..n][j] == init[i];
        }
        assert Filter(s, p) == init + [s[n]];
      }
    }
  }

  /** Inserting `x` adds it to the end of its own key group and leaves the other groups alone. */
  lemma {:induction false} InsertByGroups<T>(x: T, s: seq<T>, key: T -> int, v: int)
    ensures Filter(InsertBy(x, s, key), HasKey(key, v))
            == Filter(s, HasKey(key, v)) + (if key(x) == v then [x] else [])
  {
    var p := HasKey(key, v);
    if s == [] || key(s[|s| - 1]) <= key(x) {
      FilterSnoc(s, x, p);
    } else {
      var n := |s| - 1;
      var y := s[n];
      var left := InsertBy(x, s[..n], key);
      InsertByGroups(x, s[..n], key, v);
      FilterSnoc(left, y, p);
      var mine: seq<T> := if key(x) == v then [x] else [];
      var last: seq<T> := if key(y) == v then [y] else [];
      assert Filter(s, p) == Filter(s[..n], p) + last;
      SwapAroundEmpty(Filter(left, p), Filter(s[..n], p), mine, last);
    }
  }

  /** `a == b + t` and one of `t`, `u` empty: appending `u` commutes with `t`. */
  lemma SwapAroundEmpty<T>(a: seq<T>, b: seq<T>, t: seq<T>, u: seq<T>)
    requires a == b + t && (t == [] || u == [])
    ensures a + u == b + u + t
  {
    if t == [] {
      assert b + t == b;
      assert b + u + t == b + u;
    } else {
      assert a + u == a;
      assert b + u == b;
    }
  }

  /** Stability: the elements of every key appear in the result in their input order. */
  lemma {:induction false} SortByKeyStable<T>(s: seq<T>, key: T -> int, v: int)
    ensures Filter(SortByKey(s, key), HasKey(key, v)) == Filter(s, HasKey(key, v))
  {
    if s != [] {
      var n := |s| - 1;
      SortByKeyStable(s[..n], key, v);
      InsertByGroups(s[n], SortByKey(s[..n], key), key, v);
      assert Filter(s, HasKey(key, v)) == Filter(s[..n], HasKey(key, v)) + (if key(s[n]) == v then [s[n]] else []);
    }
  }

  /** With pairwise distinct keys the result is strictly ascending. */
  lemma SortByKeyStrict<T>(s: seq<T>, key: T -> int)
    requires forall i, j :: 0 <= i < j < |s| ==> key(s[i]) != key(s[j])
    ensures forall i, j :: 0 <= i < j < |SortByKey(s, key)| ==>
      key(SortByKey(s, key)[i]) < key(SortByKey(s, key)[j])
  {
    var r := SortByKey(s, key);
    SortByKeySorted(s, key);
    forall i, j | 0 <= i < j < |r| ensures key(r[i]) < key(r[j]) {
      if key(r[i]) == key(r[j]) {
        DuplicateKey(s, r, key, i, j);
      }
    }
  }

  /** A permutation with two equal keys at distinct positions gives the source two equal keys. */
  lemma DuplicateKey<T>(s: seq<T>, r: seq<T>, key: T -> int, i: nat, j: nat)
    requires multiset(r) == multiset(s)
    requires i < j < |r| && key(r[i]) == key(r[j])
    ensures exists a, b :: 0 <= a < b < |s| && key(s[a]) == key(s[b])
  {
    assert r[i] in multiset(s);
    var a :| 0 <= a < |s| && s[a] == r[i];
    if r[i] == r[j] {
      assert r == r[..j] + [r[j]] + r[j + 1..];
      assert r[..j] == r[..i] + [r[i]] + r[i + 1..j];
      assert multiset(r)[r[i]] >= 2;
      var b := OtherOccurrence(s, a);
      if b < a {
        assert key(s[b]) == key(s[a]);
      } else {
        assert key(s[a]) == key(s[b]);
      }
    } else {
      assert r[j] in multiset(s);
      var b :| 0 <= b < |s| && s[b] == r[j];
      assert a != b;
      if b < a {
        assert key(s[b]) == key(s[a]);
      } else {
        assert key(s[a]) == key(s[b]);
      }
    }
  }

  /** An element occurring twice occurs at a second index. */
  lemma OtherOccurrence<T>(s: seq<T>, a: nat) returns (b: nat)
    requires a < |s| && multiset(s)[s[a]] >= 2
    ensures b < |s| && b != a && s[b] == s[a]
  {
    assert s == s[..a] + [s[a]] + s[a + 1..];
    assert multiset(s) == multiset(s[..a]) + multiset{s[a]} + multiset(s[a + 1..]);
    if s[a] in multiset(s[..a]) {
      var k :| 0 <= k < a && s[..a][k] == s[a];
      b := k;
    } else {
      assert s[a] in multiset(s[a + 1..]);
      var k :| 0 <= k < |s| - a - 1 && s[a + 1..][k] == s[a];
      b := a + 1 + k;
    }
  }
}
