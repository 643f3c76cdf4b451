/*
 * Python's `sorted(xs, key=k, reverse=True)`: a stable sort by a real
 * key, largest first. Elements with equal keys keep their input order.
 * An ascending stable sort is the same sort on the negated key.
 */
module Sorting {

  predicate SortedDesc<T>(s: seq<T>, key: T -> real) {
    forall i, j :: 0 <= i < j < |s| ==> key(s[i]) >= key(s[j])
  }

  /** The elements of s whose key is k, in order. */
  function WithKey<T>(s: seq<T>, key: T -> real, k: real): seq<T> {
    if s == [] then []
    else WithKey(s[..|s| - 1], key, k) + (if key(s[|s| - 1]) == k then [s[|s| - 1]] else [])
  }

  /** x placed after every element whose key is at least its own. */
  function Insert<T>(x: T, s: seq<T>, key: T -> real): seq<T> {
    if s == [] then [x]
    else if key(s[0]) >= key(x) then [s[0]] + Insert(x, s[1..], key)
    else [x] + s
  }

  /** The sorted list, built by inserting the elements one by one in input order. */
  function SortDesc<T>(s: seq<T>, key: T -> real): seq<T> {
    if s == [] then [] else Insert(s[|s| - 1], SortDesc(s[..|s| - 1], key), key)
  }

  lemma {:induction false} InsertPermutes<T>(x: T, s: seq<T>, key: T -> real)
    ensures multiset(Insert(x, s, key)) == multiset(s) + multiset{x}
    ensures |Insert(x, s, key)| == |s| + 1
    decreases |s|
  {
    if s != [] && key(s[0]) >= key(x) {
      InsertPermutes(x, s[1..], key);
      assert s == [s[0]] + s[1..];
    }
  }

  lemma {:induction false} InsertSorted<T>(x: T, s: seq<T>, key: T -> real)
    requires SortedDesc(s, key)
    ensures SortedDesc(Insert(x, s, key), key)
    decreases |s|
  {
    if s != [] && key(s[0]) >= key(x) {
      InsertSorted(x, s[1..], key);
      InsertPermutes(x, s[1..], key);
      var r := Insert(x, s[1..], key);
      forall y | y in multiset(r) ensures key(s[0]) >= key(y) {
        assert y in multiset(s[1..]) + multiset{x};
        if y in multiset(s[1..]) {
          var m :| 0 <= m < |s[1..]| && s[1..][m] == y;
          assert s[m + 1] == y;
        }
      }
      forall i | 0 <= i < |r| ensures key(s[0]) >= key(r[i]) {
        assert r[i] in multiset(r);
      }
    }
  }

  lemma {:induction false} WithKeyAppend<T>(a: seq<T>, b: seq<T>, key: T -> real, k: real)
    ensures WithKey(a + b, key, k) == WithKey(a, key, k) + WithKey(b, key, k)
    decreases |b|
  {
    if b == [] {
      assert a + b == a;
    } else {
      assert (a + b)[..|a + b| - 1] == a + b[..|b| - 1];
      WithKeyAppend(a, b[..|b| - 1], key, k);
    }
  }

  lemma {:induction false} WithKeyNone<T>(s: seq<T>, key: T -> real, k: real)
    requires forall i :: 0 <= i < |s| ==> key(s[i]) != k
    ensures WithKey(s, key, k) == []
    decreases |s|
  {
    if s != [] {
      WithKeyNone(s[..|s| - 1], key, k);
    }
  }

  lemma WithKeyOne<T>(x: T, key: T -> real, k: real)
    ensures WithKey([x], key, k) == (if key(x) == k then [x] else [])
  {
    assert [x][..0] == [];
  }

  lemma SortedTail<T>(s: seq<T>, key: T -> real)
    requires s != [] && SortedDesc(s, key)
    ensures SortedDesc(s[1..], key)
  {
    forall i, j | 0 <= i < j < |s| - 1 ensures key(s[1..][i]) >= key(s[1..][j]) {
      assert s[1..][i] == s[i + 1] && s[1..][j] == s[j + 1];
    }
  }

  /** x placed before a sorted list whose keys are all below its own. */
  lemma FrontStable<T>(x: T, s: seq<T>, key: T -> real, k: real)
    requires s != [] && SortedDesc(s, key) && key(s[0]) < key(x)
    ensures WithKey([x] + s, key, k) == WithKey(s, key, k) + WithKey([x], key, k)
  {
    WithKeyAppend([x], s, key, k);
    WithKeyOne(x, key, k);
    if key(x) == k {
      forall i | 0 <= i < |s| ensures key(s[i]) != k {
        assert i == 0 || key(s[0]) >= key(s[i]);
      }
      WithKeyNone(s, key, k);
    }
  }

  /** Inserting x appends it to the elements of its key and leaves the other keys alone. */
  lemma {:induction false} InsertStable<T>(x: T, s: seq<T>, key: T -> real, k: real)
    requires SortedDesc(s, key)
    ensures WithKey(Insert(x, s, key), key, k) == WithKey(s, key, k) + WithKey([x], key, k)
    decreases |s|
  {
    if s == [] {
      assert WithKey(s, key, k) == [];
    } else if key(s[0]) >= key(x) {
      var rest := Insert(x, s[1..], key);
      SortedTail(s, key);
      InsertStable(x, s[1..], key, k);
      WithKeyAppend([s[0]], rest, key, k);
      WithKeyAppend([s[0]], s[1..], key, k);
      assert [s[0]] + s[1..] == s;
    } else {
      FrontStable(x, s, key, k);
    }
  }

  /** The sort is ordered, a permutation, and stable. */
  lemma {:induction false} SortDescCorrect<T>(s: seq<T>, key: T -> real)
    ensures SortedDesc(SortDesc(s, key), key)
    ensures multiset(SortDesc(s, key)) == multiset(s)
    ensures forall k :: WithKey(SortDesc(s, key), key, k) == WithKey(s, key, k)
    decreases |s|
  {
    if s != [] {
      var n := |s| - 1;
      SortDescCorrect(s[..n], key);
      InsertSorted(s[n], SortDesc(s[..n], key), key);
      InsertPermutes(s[n], SortDesc(s[..n], key), key);
      assert s == s[..n] + [s[n]];
      forall k ensures WithKey(SortDesc(s, key), key, k) == WithKey(s, key, k) {
        InsertStable(s[n], SortDesc(s[..n], key), key, k);
        WithKeyAppend(s[..n], [s[n]], key, k);
      }
    }
  }

  /** Insert x into a sorted list, scanning for the first smaller key. */
  method InsertDesc<T>(x: T, s: seq<T>, key: T -> real) returns (r: seq<T>)
    ensures r == Insert(x, s, key)
  {
    var j := 0;
    while j < |s| && key(s[j]) >= key(x)
      invariant 0 <= j <= |s|
      invariant Insert(x, s, key) == s[..j] + Insert(x, s[j..], key)
    {
      assert s[j..][1..] == s[j + 1..];
      assert s[..j + 1] == s[..j] + [s[j]];
      j := j + 1;
    }
    r := s[..j] + [x] + s[j..];
  }

  /** `sorted(s, key=key, reverse=True)` */
  method SortByKeyDesc<T>(s: seq<T>, key: T -> real) returns (r: seq<T>)
    ensures r == SortDesc(s, key)
    ensures SortedDesc(r, key)
    ensures multiset(r) == multiset(s)
    ensures forall k :: WithKey(r, key, k) == WithKey(s, key, k)
  {
    r := [];
    for i := 0 to |s|
      invariant r == SortDesc(s[..i], key)
    {
      assert s[..i + 1][..i] == s[..i];
      r := InsertDesc(s[i], r, key);
    }
    assert s[..|s|] == s;
    SortDescCorrect(s, key);
  }
}
