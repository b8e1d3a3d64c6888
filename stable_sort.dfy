/**
 * `Array.prototype.sort` with a comparator `(a, b) => key(b) - key(a)`: a stable sort into
 * non-increasing key order. JavaScript's sort is stable, so elements with equal keys keep
 * their input order; the model is an insertion sort with the same outcome.
 */
module StableSort {
  import opened Seqs

  ghost predicate SortedDesc<T>(s: seq<T>, key: T -> real) {
    forall i, j :: 0 <= i < j < |s| ==> key(s[i]) >= key(s[j])
  }

  /** Places `x` before the first element whose key is not larger than its own. */
  function Insert<T>(x: T, s: seq<T>, key: T -> real): (r: seq<T>)
    ensures |r| == |s| + 1
    ensures multiset(r) == multiset(s) + multiset{x}
  {
    if s == [] then [x]
    else if key(s[0]) > key(x) then
      assert s == [s[0]] + s[1..];
      [s[0]] + Insert(x, s[1..], key)
    else [x] + s
  }

  /** Inserting never produces a key above a bound that `x` and all of `s` respect. */
  lemma {:induction false} InsertBounded<T>(x: T, s: seq<T>, key: T -> real, b: real)
    requires key(x) <= b
    requires forall i :: 0 <= i < |s| ==> key(s[i]) <= b
    ensures forall i :: 0 <= i < |s| + 1 ==> key(Insert(x, s, key)[i]) <= b
  {
    if s != [] && key(s[0]) > key(x) {
      InsertBounded(x, s[1..], key, b);
    }
  }

  lemma {:induction false} InsertSorted<T>(x: T, s: seq<T>, key: T -> real)
    requires SortedDesc(s, key)
    ensures SortedDesc(Insert(x, s, key), key)
  {
    if s != [] && key(s[0]) > key(x) {
      var rest := Insert(x, s[1..], key);
      assert SortedDesc(s[1..], key);
      InsertSorted(x, s[1..], key);
      InsertBounded(x, s[1..], key, key(s[0]));
      assert Insert(x, s, key) == [s[0]] + rest;
      ConsSorted(s[0], rest, key);
    } else {
      assert Insert(x, s, key) == [x] + s;
      ConsSorted(x, s, key);
    }
  }

  /** A sorted sequence stays sorted behind an element whose key bounds all of it. */
  lemma ConsSorted<T>(y: T, s: seq<T>, key: T -> real)
    requires SortedDesc(s, key)
    requires s == [] || key(s[0]) <= key(y)
    requires forall i :: 0 <= i < |s| ==> key(s[i]) <= key(s[0])
    ensures SortedDesc([y] + s, key)
  {
    var r := [y] + s;
    forall i, j | 0 <= i < j < |r|
      ensures key(r[i]) >= key(r[j])
    {
      assert r[j] == s[j - 1];
      if i > 0 {
        assert r[i] == s[i - 1];
      }
    }
  }

  function SortDesc<T>(s: seq<T>, key: T -> real): (r: seq<T>)
    ensures |r| == |s|
    ensures multiset(r) == multiset(s)
    ensures SortedDesc(r, key)
  {
    if s == [] then []
    else
      assert s == [s[0]] + s[1..];
      var rest := SortDesc(s[1..], key);
      InsertSorted(s[0], rest, key);
      Insert(s[0], rest, key)
  }

  /** The predicate "has key `k`". */
  function HasKey<T>(key: T -> real, k: real): T -> bool {
    y => key(y) == k
  }

  /** Inserting adds `x` to the elements with key `k` exactly when `x` has that key, in front of them. */
  lemma {:induction false} InsertStable<T>(x: T, s: seq<T>, key: T -> real, k: real)
    ensures Filter(Insert(x, s, key), HasKey(key, k))
         == (if key(x) == k then [x] else []) + Filter(s, HasKey(key, k))
    decreases |s|
  {
    if s == [] {
      assert Insert(x, s, key) == [x] + s;
      FilterCons(x, s, HasKey(key, k));
    } else if key(s[0]) > key(x) {
      InsertStable(x, s[1..], key, k);
      InsertStableSkip(x, s, key, k);
    } else {
      assert Insert(x, s, key) == [x] + s;
      FilterCons(x, s, HasKey(key, k));
    }
  }

  /** The step of `InsertStable` where `x` moves past the first element. */
  lemma InsertStableSkip<T>(x: T, s: seq<T>, key: T -> real, k: real)
    requires s != [] && key(s[0]) > key(x)
    requires Filter(Insert(x, s[1..], key), HasKey(key, k))
          == (if key(x) == k then [x] else []) + Filter(s[1..], HasKey(key, k))
    ensures Filter(Insert(x, s, key), HasKey(key, k))
         == (if key(x) == k then [x] else []) + Filter(s, HasKey(key, k))
  {
    var p := HasKey(key, k);
    assert Insert(x, s, key) == [s[0]] + Insert(x, s[1..], key);
    assert s == [s[0]] + s[1..];
    assert key(x) == k ==> !p(s[0]);
    FrontPassesOver(s[0], Insert(x, s[1..], key), s[1..], p, if key(x) == k then [x] else []);
  }

  /** Moving a prefix `here` of filtered elements past an element the filter drops, or past any element when `here` is empty. */
  lemma FrontPassesOver<T>(y: T, rest: seq<T>, tail: seq<T>, p: T -> bool, here: seq<T>)
    requires Filter(rest, p) == here + Filter(tail, p)
    requires !p(y) || here == []
    ensures Filter([y] + rest, p) == here + Filter([y] + tail, p)
  {
    FilterCons(y, rest, p);
    FilterCons(y, tail, p);
    var head := if p(y) then [y] else [];
    SwapAroundEmpty(head, here, Filter(tail, p));
  }

  lemma SwapAroundEmpty<T>(a: seq<T>, b: seq<T>, c: seq<T>)
    requires a == [] || b == []
    ensures a + (b + c) == b + (a + c)
  {
    if a == [] {
      assert a + (b + c) == b + c == b + (a + c);
    } else {
      assert a + (b + c) == a + c == b + (a + c);
    }
  }

  /** Stability: the elements sharing any one key appear in the same order before and after. */
  lemma {:induction false} SortDescStable<T>(s: seq<T>, key: T -> real, k: real)
    ensures Filter(SortDesc(s, key), HasKey(key, k)) == Filter(s, HasKey(key, k))
  {
    if s != [] {
      SortDescStable(s[1..], key, k);
      InsertStable(s[0], SortDesc(s[1..], key), key, k);
      FilterAppend([s[0]], s[1..], HasKey(key, k));
      assert [s[0]] + s[1..] == s;
    }
  }
}
