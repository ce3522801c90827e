/**
 * The ordering used when versions and groups are listed: a stable sort on an
 * integer key (`stream().sorted(Comparator.comparing(...::timestamp))` on an
 * ordered stream), written as an insertion sort.
 */
module Ordering {

  /** Keys never decrease from left to right. */
  predicate SortedBy<T>(s: seq<T>, key: T -> int) {
    forall i, j :: 0 <= i < j < |s| ==> key(s[i]) <= key(s[j])
  }

  /** The elements of `s` whose key is `k`, in their order in `s`. */
  function WithKey<T>(s: seq<T>, key: T -> int, k: int): seq<T> {
    if s == [] then []
    else if key(s[0]) == k then [s[0]] + WithKey(s[1..], key, k)
    else WithKey(s[1..], key, k)
  }

  /** Puts `x` before the first element whose key is not below its own. */
  function Insert<T>(x: T, s: seq<T>, key: T -> int): (r: seq<T>)
    ensures multiset(r) == multiset(s) + multiset{x}
    ensures SortedBy(s, key) ==> SortedBy(r, key)
  {
    if s == [] then [x]
    else if key(x) <= key(s[0]) then [x] + s
    else
      var rest := Insert(x, s[1..], key);
      assert s == [s[0]] + s[1..];
      assert SortedBy(s, key) ==> forall i :: 0 <= i < |rest| ==> key(s[0]) <= key(rest[i]) by {
        if SortedBy(s, key) {
          forall i | 0 <= i < |rest| ensures key(s[0]) <= key(rest[i]) {
            assert rest[i] in multiset(rest);
            assert rest[i] in multiset(s[1..]) + multiset{x};
          }
        }
      }
      [s[0]] + rest
  }

  /** The stable insertion sort: sort the tail, then insert the head in front of its equals. */
  function StableSort<T>(s: seq<T>, key: T -> int): (r: seq<T>)
    ensures multiset(r) == multiset(s)
    ensures SortedBy(r, key)
    ensures |r| == |s|
  {
    if s == [] then []
    else
      assert s == [s[0]] + s[1..];
      var r := Insert(s[0], StableSort(s[1..], key), key);
      assert |r| == |multiset(r)|;
      r
  }

  lemma {:induction false} WithKeyAppend<T>(a: seq<T>, b: seq<T>, key: T -> int, k: int)
    ensures WithKey(a + b, key, k) == WithKey(a, key, k) + WithKey(b, key, k)
  {
    if a == [] {
      assert a + b == b;
    } else {
      assert (a + b)[0] == a[0];
      assert (a + b)[1..] == a[1..] + b;
      WithKeyAppend(a[1..], b, key, k);
    }
  }

  /** Inserting `x` leaves every other key's elements as they were and puts `x` first among its equals. */
  lemma {:induction false} InsertWithKey<T>(x: T, s: seq<T>, key: T -> int, k: int)
    ensures WithKey(Insert(x, s, key), key, k)
         == if key(x) == k then [x] + WithKey(s, key, k) else WithKey(s, key, k)
  {
    if s != [] && key(x) > key(s[0]) {
      InsertWithKey(x, s[1..], key, k);
      assert Insert(x, s, key) == [s[0]] + Insert(x, s[1..], key);
      WithKeyAppend([s[0]], Insert(x, s[1..], key), key, k);
    } else if s != [] {
      assert Insert(x, s, key) == [x] + s;
      WithKeyAppend([x], s, key, k);
    }
  }

  /** Stability: elements with equal keys keep their input order. */
  lemma {:induction false} StableSortIsStable<T>(s: seq<T>, key: T -> int, k: int)
    ensures WithKey(StableSort(s, key), key, k) == WithKey(s, key, k)
  {
    if s != [] {
      StableSortIsStable(s[1..], key, k);
      InsertWithKey(s[0], StableSort(s[1..], key), key, k);
    }
  }

  // ---------------------------------------------------------------------------
  // Uniqueness: sortedness and stability pin the result down completely.
  // ---------------------------------------------------------------------------

  lemma {:induction false} WithKeyFirst<T>(s: seq<T>, key: T -> int)
    requires s != []
    ensures WithKey(s, key, key(s[0])) != [] && WithKey(s, key, key(s[0]))[0] == s[0]
  {
  }

  lemma {:induction false} WithKeyMembers<T>(s: seq<T>, key: T -> int, k: int)
    ensures forall x :: x in WithKey(s, key, k) <==> x in s && key(x) == k
  {
    if s != [] {
      WithKeyMembers(s[1..], key, k);
      assert s == [s[0]] + s[1..];
    }
  }

  /** In a sorted non-empty sequence, the first element's key is the least. */
  lemma SortedHeadIsLeast<T>(s: seq<T>, key: T -> int, x: T)
    requires SortedBy(s, key) && x in s
    ensures key(s[0]) <= key(x)
  {
  }

  /**
   * Any sequence that is sorted and keeps, for every key, the input order of the
   * elements with that key is the stable sort of the input.
   */
  lemma {:induction false} StableSortUnique<T>(s: seq<T>, r: seq<T>, key: T -> int)
    requires SortedBy(r, key)
    requires forall k :: WithKey(r, key, k) == WithKey(s, key, k)
    ensures r == StableSort(s, key)
  {
    var q := StableSort(s, key);
    forall k ensures WithKey(r, key, k) == WithKey(q, key, k) {
      StableSortIsStable(s, key, k);
    }
    SortedUnique(r, q, key);
  }

  /** Two sorted sequences with the same elements per key, in the same order, are equal. */
  lemma {:induction false} SortedUnique<T>(r: seq<T>, q: seq<T>, key: T -> int)
    requires SortedBy(r, key) && SortedBy(q, key)
    requires forall k :: WithKey(r, key, k) == WithKey(q, key, k)
    ensures r == q
    decreases |r| + |q|
  {
    if r != [] || q != [] {
      // Neither side can be empty: the other one's head has a key with elements.
      if r != [] { WithKeyFirst(r, key); }
      if q != [] { WithKeyFirst(q, key); }
      assert r != [] ==> WithKey(q, key, key(r[0])) != [];
      assert q != [] ==> WithKey(r, key, key(q[0])) != [];
      assert r != [] && q != [];
      // Both heads carry the least key, and are the first element with that key.
      WithKeyMembers(r, key, key(q[0]));
      WithKeyMembers(q, key, key(r[0]));
      assert q[0] in WithKey(q, key, key(q[0]));
      assert r[0] in WithKey(r, key, key(r[0]));
      SortedHeadIsLeast(r, key, q[0]);
      SortedHeadIsLeast(q, key, r[0]);
      assert key(r[0]) == key(q[0]);
      assert r[0] == q[0];
      forall k ensures WithKey(r[1..], key, k) == WithKey(q[1..], key, k) {
        var head := if key(r[0]) == k then [r[0]] else [];
        assert WithKey(r, key, k) == head + WithKey(r[1..], key, k);
        assert WithKey(q, key, k) == head + WithKey(q[1..], key, k);
        assert WithKey(r, key, k) == WithKey(q, key, k);
        assert WithKey(r[1..], key, k) == WithKey(r, key, k)[|head|..];
        assert WithKey(q[1..], key, k) == WithKey(q, key, k)[|head|..];
      }
      SortedUnique(r[1..], q[1..], key);
    }
  }
}
