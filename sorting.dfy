/** The final ordering step of both scripts: restaurants.sort by distance_miles. Both
    Array.prototype.sort and list.sort are stable, so the model is a stable insertion sort
    on a real-valued key. */
module Sorting {

  predicate SortedBy<T>(s: seq<T>, key: T -> real) {
    forall i, j :: 0 <= i < j < |s| ==> key(s[i]) <= key(s[j])
  }

  /** Inserts x in front of the first element whose key is not smaller than x's. */
  function Insert<T>(x: T, s: seq<T>, key: T -> real): (r: seq<T>)
    ensures |r| == |s| + 1
  {
    if s == [] || key(x) <= key(s[0]) then [x] + s
    else [s[0]] + Insert(x, s[1..], key)
  }

  /** Insert adds exactly x. */
  lemma {:induction false} InsertPermutes<T>(x: T, s: seq<T>, key: T -> real)
    ensures multiset(Insert(x, s, key)) == multiset(s) + multiset{x}
  {
    if s != [] && key(s[0]) < key(x) {
      InsertPermutes(x, s[1..], key);
      assert s == [s[0]] + s[1..];
    }
  }

  /** Insert keeps a sorted sequence sorted. */
  lemma {:induction false} InsertKeepsSorted<T>(x: T, s: seq<T>, key: T -> real)
    ensures SortedBy(s, key) ==> SortedBy(Insert(x, s, key), key)
  {
    if s != [] && key(s[0]) < key(x) {
      InsertKeepsSorted(x, s[1..], key);
      InsertPermutes(x, s[1..], key);
      if SortedBy(s, key) {
        assert SortedBy(s[1..], key);
      }
      InsertSorted(x, s, Insert(x, s[1..], key), key);
    }
  }

  lemma InsertSorted<T>(x: T, s: seq<T>, rest: seq<T>, key: T -> real)
    requires s != [] && key(s[0]) < key(x)
    requires multiset(rest) == multiset(s[1..]) + multiset{x}
    requires SortedBy(s[1..], key) ==> SortedBy(rest, key)
    ensures SortedBy(s, key) ==> SortedBy([s[0]] + rest, key)
  {
    if SortedBy(s, key) {
      forall y | y in rest ensures key(s[0]) <= key(y) {
        assert y in multiset(rest);
        if y != x {
          assert y in multiset(s[1..]);
          var k :| 0 <= k < |s[1..]| && s[1..][k] == y;
          assert s[k + 1] == y;
        }
      }
      var r := [s[0]] + rest;
      forall i, j | 0 <= i < j < |r| ensures key(r[i]) <= key(r[j]) {
        if i == 0 {
          assert r[j] == rest[j - 1];
          assert rest[j - 1] in rest;
        } else {
          assert r[i] == rest[i - 1] && r[j] == rest[j - 1];
        }
      }
    }
  }

  /** restaurants.sort((a, b) => a.distance_miles - b.distance_miles), and
      restaurants.sort(key=lambda x: x["distance_miles"]). */
  function SortBy<T(==)>(s: seq<T>, key: T -> real): (r: seq<T>)
    ensures SortedBy(r, key)
    ensures multiset(r) == multiset(s)
  {
    if s == [] then []
    else
      var rest := SortBy(s[1..], key);
      InsertKeepsSorted(s[0], rest, key);
      InsertPermutes(s[0], rest, key);
      assert s == [s[0]] + s[1..];
      Insert(s[0], rest, key)
  }

  /** The elements of s whose key is c, in their order in s. */
  function WithKey<T>(s: seq<T>, key: T -> real, c: real): seq<T> {
    if s == [] then [] else (if key(s[0]) == c then [s[0]] else []) + WithKey(s[1..], key, c)
  }

  lemma WithKeyCons<T>(y: T, t: seq<T>, key: T -> real, c: real)
    ensures WithKey([y] + t, key, c) == (if key(y) == c then [y] else []) + WithKey(t, key, c)
  {
    assert ([y] + t)[1..] == t;
  }

  lemma {:induction false} InsertWithKey<T>(x: T, s: seq<T>, key: T -> real, c: real)
    ensures WithKey(Insert(x, s, key), key, c) == (if key(x) == c then [x] else []) + WithKey(s, key, c)
  {
    if s == [] || key(x) <= key(s[0]) {
      WithKeyCons(x, s, key, c);
    } else {
      InsertWithKey(x, s[1..], key, c);
      InsertLater(x, s, key, c);
    }
  }

  /** The step of InsertWithKey where x goes past the head of s. */
  lemma InsertLater<T>(x: T, s: seq<T>, key: T -> real, c: real)
    requires s != [] && key(s[0]) < key(x)
    requires WithKey(Insert(x, s[1..], key), key, c) == (if key(x) == c then [x] else []) + WithKey(s[1..], key, c)
    ensures WithKey(Insert(x, s, key), key, c) == (if key(x) == c then [x] else []) + WithKey(s, key, c)
  {
    var rest := Insert(x, s[1..], key);
    WithKeyCons(s[0], rest, key, c);
    assert s == [s[0]] + s[1..];
    WithKeyCons(s[0], s[1..], key, c);
  }

  /** Stability: elements with equal keys keep the order in which they were collected. */
  lemma {:induction false} SortIsStable<T>(s: seq<T>, key: T -> real, c: real)
    ensures WithKey(SortBy(s, key), key, c) == WithKey(s, key, c)
  {
    if s != [] {
      SortIsStable(s[1..], key, c);
      InsertWithKey(s[0], SortBy(s[1..], key), key, c);
    }
  }
}
