/**
 * Python's ordering of sort keys. The scrapers sort with `key=lambda x: (rank, deadline)`
 * and the dashboard with `key=score, reverse=True`; both become a `Key` of an integer
 * rank and a string compared code point by code point, and a stable sort on it.
 */
module Ordering {
  import opened Collections

  /** A sort key `(rank, text)`; a numeric key alone is `Key(n, "")`. */
  datatype Key = Key(rank: int, text: string)

  /** Python's `a <= b` on strings: lexicographic on code points, a prefix first. */
  predicate StrLe(a: string, b: string) {
    if a == [] then true
    else if b == [] then false
    else if a[0] != b[0] then a[0] < b[0]
    else StrLe(a[1..], b[1..])
  }

  lemma {:induction false} StrLeTotal(a: string, b: string)
    ensures StrLe(a, b) || StrLe(b, a)
  {
    if a != [] && b != [] && a[0] == b[0] {
      StrLeTotal(a[1..], b[1..]);
    }
  }

  lemma {:induction false} StrLeTrans(a: string, b: string, c: string)
    requires StrLe(a, b) && StrLe(b, c)
    ensures StrLe(a, c)
  {
    if a != [] && b != [] && c != [] && a[0] == b[0] && b[0] == c[0] {
      StrLeTrans(a[1..], b[1..], c[1..]);
    }
  }

  lemma {:induction false} StrLeAntisymmetric(a: string, b: string)
    requires StrLe(a, b) && StrLe(b, a)
    ensures a == b
  {
    if a != [] && b != [] {
      StrLeAntisymmetric(a[1..], b[1..]);
      assert a == [a[0]] + a[1..] && b == [b[0]] + b[1..];
    }
  }

  /** Python's `<=` on the tuple `(rank, text)`. */
  predicate KeyLe(x: Key, y: Key) {
    x.rank < y.rank || (x.rank == y.rank && StrLe(x.text, y.text))
  }

  lemma KeyLeTotal(x: Key, y: Key)
    ensures KeyLe(x, y) || KeyLe(y, x)
  {
    StrLeTotal(x.text, y.text);
  }

  lemma KeyLeTrans(x: Key, y: Key, z: Key)
    requires KeyLe(x, y) && KeyLe(y, z)
    ensures KeyLe(x, z)
  {
    if x.rank == y.rank == z.rank {
      StrLeTrans(x.text, y.text, z.text);
    }
  }

  predicate Sorted<T>(s: seq<T>, key: T -> Key) {
    forall i, j :: 0 <= i < j < |s| ==> KeyLe(key(s[i]), key(s[j]))
  }

  /** Every element of `s` has a key at least `k`. */
  predicate AllAtLeast<T>(s: seq<T>, key: T -> Key, k: Key) {
    forall j :: 0 <= j < |s| ==> KeyLe(k, key(s[j]))
  }

  /** Puts `x` in front of the first element whose key is not smaller than its own. */
  function Insert<T>(x: T, t: seq<T>, key: T -> Key): (r: seq<T>)
    ensures |r| == |t| + 1
  {
    if t == [] || KeyLe(key(x), key(t[0])) then [x] + t
    else [t[0]] + Insert(x, t[1..], key)
  }

  lemma {:induction false} InsertPermutation<T>(x: T, t: seq<T>, key: T -> Key)
    ensures multiset(Insert(x, t, key)) == multiset(t) + multiset{x}
  {
    if t != [] && !KeyLe(key(x), key(t[0])) {
      InsertPermutation(x, t[1..], key);
      assert t == [t[0]] + t[1..];
    }
  }

  lemma {:induction false} InsertAtLeast<T>(x: T, t: seq<T>, key: T -> Key, k: Key)
    requires AllAtLeast(t, key, k) && KeyLe(k, key(x))
    ensures AllAtLeast(Insert(x, t, key), key, k)
  {
    if t != [] && !KeyLe(key(x), key(t[0])) {
      assert AllAtLeast(t[1..], key, k) by {
        forall j | 0 <= j < |t[1..]| ensures KeyLe(k, key(t[1..][j])) {
          assert t[1..][j] == t[j + 1];
        }
      }
      InsertAtLeast(x, t[1..], key, k);
      var r := Insert(x, t, key);
      forall j | 0 <= j < |r| ensures KeyLe(k, key(r[j])) {
        if j > 0 {
          assert r[j] == Insert(x, t[1..], key)[j - 1];
        }
      }
    }
  }

  lemma {:induction false} InsertSorted<T>(x: T, t: seq<T>, key: T -> Key)
    requires Sorted(t, key)
    ensures Sorted(Insert(x, t, key), key)
  {
    var r := Insert(x, t, key);
    if t == [] {
    } else if KeyLe(key(x), key(t[0])) {
      forall i, j | 0 <= i < j < |r| ensures KeyLe(key(r[i]), key(r[j])) {
        if i == 0 && j > 1 {
          KeyLeTrans(key(x), key(t[0]), key(t[j - 1]));
        } else if i == 0 {
        } else {
          assert r[i] == t[i - 1] && r[j] == t[j - 1];
        }
      }
    } else {
      KeyLeTotal(key(x), key(t[0]));
      var t' := t[1..];
      assert Sorted(t', key) by {
        forall i, j | 0 <= i < j < |t'| ensures KeyLe(key(t'[i]), key(t'[j])) {
          assert t'[i] == t[i + 1] && t'[j] == t[j + 1];
        }
      }
      assert AllAtLeast(t', key, key(t[0])) by {
        forall j | 0 <= j < |t'| ensures KeyLe(key(t[0]), key(t'[j])) {
          assert t'[j] == t[j + 1];
        }
      }
      InsertSorted(x, t', key);
      InsertAtLeast(x, t', key, key(t[0]));
      var rest := Insert(x, t', key);
      forall i, j | 0 <= i < j < |r| ensures KeyLe(key(r[i]), key(r[j])) {
        assert r[j] == rest[j - 1];
        if i > 0 {
          assert r[i] == rest[i - 1];
        }
      }
    }
  }

  /**
   * A stable sort: this is the order Python's `sorted` produces, equal keys staying
   * in input order because each element is inserted in front of the ones that
   * follow it with an equal key.
   */
  function SortBy<T>(s: seq<T>, key: T -> Key): (r: seq<T>)
    ensures Sorted(r, key)
    ensures multiset(r) == multiset(s)
    ensures |r| == |s|
  {
    if s == [] then []
    else
      assert s == [s[0]] + s[1..];
      var rest := SortBy(s[1..], key);
      InsertSorted(s[0], rest, key);
      InsertPermutation(s[0], rest, key);
      Insert(s[0], rest, key)
  }

  /** Sorting an already sorted list leaves it as it is. */
  lemma {:induction false} SortSortedIsIdentity<T>(s: seq<T>, key: T -> Key)
    requires Sorted(s, key)
    ensures SortBy(s, key) == s
  {
    if s != [] {
      assert Sorted(s[1..], key);
      SortSortedIsIdentity(s[1..], key);
      assert s == [s[0]] + s[1..];
    }
  }

  /** The first element of a sorted non-empty list has the smallest key. */
  lemma SortedHeadIsLeast<T>(s: seq<T>, key: T -> Key, j: int)
    requires 0 <= j < |s|
    ensures KeyLe(key(SortBy(s, key)[0]), key(SortBy(s, key)[j]))
  {
    var r := SortBy(s, key);
    if j == 0 {
      StrLeRefl(key(r[0]).text);
    }
  }

  lemma {:induction false} StrLeRefl(a: string)
    ensures StrLe(a, a)
  {
    if a != [] {
      StrLeRefl(a[1..]);
    }
  }

  /** Insertion keeps keys distinct when the inserted element's key is new. */
  lemma {:induction false} InsertKeepsDistinctKeys<T, K>(x: T, t: seq<T>, key: T -> Key, id: T -> K)
    requires DistinctKeys(t, id)
    requires forall j :: 0 <= j < |t| ==> id(t[j]) != id(x)
    ensures DistinctKeys(Insert(x, t, key), id)
  {
    if t != [] && !KeyLe(key(x), key(t[0])) {
      var t' := t[1..];
      assert DistinctKeys(t', id) by {
        forall i, j | 0 <= i < j < |t'| ensures id(t'[i]) != id(t'[j]) {
          assert t'[i] == t[i + 1] && t'[j] == t[j + 1];
        }
      }
      InsertKeepsDistinctKeys(x, t', key, id);
      InsertPermutation(x, t', key);
      var rest := Insert(x, t', key);
      forall j | 0 <= j < |rest| ensures id(rest[j]) != id(t[0]) {
        assert rest[j] in multiset(rest);
        if rest[j] != x {
          var k :| 0 <= k < |t'| && t'[k] == rest[j];
          assert t'[k] == t[k + 1];
        }
      }
      var r := Insert(x, t, key);
      forall i, j | 0 <= i < j < |r| ensures id(r[i]) != id(r[j]) {
        assert r[j] == rest[j - 1];
        if i > 0 {
          assert r[i] == rest[i - 1];
        }
      }
    }
  }

  /** Sorting keeps keys distinct. */
  lemma {:induction false} SortByKeepsDistinctKeys<T, K>(s: seq<T>, key: T -> Key, id: T -> K)
    requires DistinctKeys(s, id)
    ensures DistinctKeys(SortBy(s, key), id)
  {
    if s != [] {
      var t := s[1..];
      assert DistinctKeys(t, id) by {
        forall i, j | 0 <= i < j < |t| ensures id(t[i]) != id(t[j]) {
          assert t[i] == s[i + 1] && t[j] == s[j + 1];
        }
      }
      SortByKeepsDistinctKeys(t, key, id);
      var rest := SortBy(t, key);
      forall j | 0 <= j < |rest| ensures id(rest[j]) != id(s[0]) {
        assert rest[j] in multiset(t);
        var k :| 0 <= k < |t| && t[k] == rest[j];
        assert t[k] == s[k + 1];
      }
      InsertKeepsDistinctKeys(s[0], rest, key, id);
    }
  }
}
