/**
 * List operations shared by the scrapers and dashboards: counting and bucketing
 * (`len([x for x in s if p(x)])`, `d[k] = d.get(k, 0) + 1` loops), filtering by a
 * comprehension, and the order-preserving de-duplication done with a `seen` set.
 * Everything is defined left to right, the way the source's loops walk their lists.
 */
module Collections {

  // ---------------------------------------------------------------------------
  // Subsequences
  // ---------------------------------------------------------------------------

  /** `r` is `s` with some elements dropped, the rest in their original order. */
  predicate Subsequence<T(==)>(r: seq<T>, s: seq<T>)
    decreases |s|
  {
    r == [] ||
    (s != [] &&
     ((r[|r| - 1] == s[|s| - 1] && Subsequence(r[..|r| - 1], s[..|s| - 1])) ||
      Subsequence(r, s[..|s| - 1])))
  }

  lemma SubsequenceExtend<T>(r: seq<T>, s: seq<T>, x: T)
    requires Subsequence(r, s)
    ensures Subsequence(r, s + [x])
    ensures Subsequence(r + [x], s + [x])
  {
    assert (s + [x])[..|s|] == s;
    assert (r + [x])[..|r|] == r;
  }

  lemma {:induction false} SubsequenceElements<T>(r: seq<T>, s: seq<T>, j: int)
    requires Subsequence(r, s)
    requires 0 <= j < |r|
    ensures r[j] in s
    decreases |s|
  {
    assert s != [];
    if r[|r| - 1] == s[|s| - 1] && Subsequence(r[..|r| - 1], s[..|s| - 1]) {
      if j < |r| - 1 {
        SubsequenceElements(r[..|r| - 1], s[..|s| - 1], j);
        assert r[j] == r[..|r| - 1][j];
      }
    } else {
      SubsequenceElements(r, s[..|s| - 1], j);
    }
  }

  /** What holds of every element of `s` holds of every element of a subsequence. */
  lemma SubsequenceAll<T>(r: seq<T>, s: seq<T>, q: T -> bool)
    requires Subsequence(r, s)
    requires forall x :: x in s ==> q(x)
    ensures forall x :: x in r ==> q(x)
  {
    forall x | x in r ensures q(x) {
      var j :| 0 <= j < |r| && r[j] == x;
      SubsequenceElements(r, s, j);
    }
  }

  // ---------------------------------------------------------------------------
  // Mapping and slicing
  // ---------------------------------------------------------------------------

  /** `[f(x) for x in s]`. */
  function MapSeq<T, U>(s: seq<T>, f: T -> U): (r: seq<U>)
    ensures |r| == |s|
    ensures forall i :: 0 <= i < |s| ==> r[i] == f(s[i])
  {
    seq(|s|, i requires 0 <= i < |s| => f(s[i]))
  }

  lemma MapSeqAppend<T, U>(s: seq<T>, x: T, f: T -> U)
    ensures MapSeq(s + [x], f) == MapSeq(s, f) + [f(x)]
  {
  }

  /** Every element's image is in the mapped list. */
  lemma MapSeqHas<T, U>(s: seq<T>, f: T -> U)
    ensures forall x :: x in s ==> f(x) in MapSeq(s, f)
  {
    forall x | x in s ensures f(x) in MapSeq(s, f) {
      var i :| 0 <= i < |s| && s[i] == x;
      assert MapSeq(s, f)[i] == f(x);
    }
  }

  /** `[f(x, i) for i, x in enumerate(s)]`, built left to right. */
  function MapIndexed<T, U>(s: seq<T>, f: (T, nat) -> U): (r: seq<U>)
    ensures |r| == |s|
  {
    if s == [] then [] else MapIndexed(s[..|s| - 1], f) + [f(s[|s| - 1], |s| - 1)]
  }

  lemma {:induction false} MapIndexedAt<T, U>(s: seq<T>, f: (T, nat) -> U, i: nat)
    requires i < |s|
    ensures MapIndexed(s, f)[i] == f(s[i], i)
  {
    var n := |s| - 1;
    if i < n {
      MapIndexedAt(s[..n], f, i);
      assert s[..n][i] == s[i];
    }
  }

  lemma MapIndexedStep<T, U>(s: seq<T>, f: (T, nat) -> U, i: nat)
    requires i < |s|
    ensures MapIndexed(s[..i + 1], f) == MapIndexed(s[..i], f) + [f(s[i], i)]
  {
    assert s[..i + 1][..i] == s[..i];
  }

  lemma SplitAt<T>(s: seq<T>, k: nat)
    requires k <= |s|
    ensures s[..k] + s[k..] == s
  {
  }

  lemma EmptyAppend<T>(s: seq<T>)
    ensures [] + s == s
  {
  }

  lemma AppendEmpty<T>(s: seq<T>)
    ensures s + [] == s
  {
  }

  /** Python's `s[:n]`. */
  function Prefix<T>(s: seq<T>, n: nat): (r: seq<T>)
    ensures |r| == if |s| < n then |s| else n
    ensures r == s[..|r|]
  {
    if |s| <= n then s else s[..n]
  }

  // ---------------------------------------------------------------------------
  // Counting and bucketing
  // ---------------------------------------------------------------------------

  /** `len([x for x in s if p(x)])`. */
  function CountWhere<T>(s: seq<T>, p: T -> bool): (n: nat)
    ensures n <= |s|
  {
    if s == [] then 0 else CountWhere(s[..|s| - 1], p) + (if p(s[|s| - 1]) then 1 else 0)
  }

  /** Two tests that split every element between them count the whole list. */
  lemma {:induction false} CountComplement<T>(s: seq<T>, p: T -> bool, q: T -> bool)
    requires forall i :: 0 <= i < |s| ==> (p(s[i]) <==> !q(s[i]))
    ensures CountWhere(s, p) + CountWhere(s, q) == |s|
  {
    if s != [] {
      CountComplement(s[..|s| - 1], p, q);
    }
  }

  /** The number of elements that a classifier `f` sends to bucket `k`. */
  function CountOf<T, K(==)>(s: seq<T>, f: T -> K, k: K): (n: nat)
    ensures n <= |s|
  {
    if s == [] then 0 else CountOf(s[..|s| - 1], f, k) + (if f(s[|s| - 1]) == k then 1 else 0)
  }

  /** `d.get(k, 0)` on a counter dictionary. */
  function Get<K>(m: map<K, nat>, k: K): nat {
    if k in m then m[k] else 0
  }

  /** The buckets the classifier uses on `s`. */
  function Image<T, K>(s: seq<T>, f: T -> K): set<K> {
    set i | 0 <= i < |s| :: f(s[i])
  }

  lemma ImageAppend<T, K>(s: seq<T>, x: T, f: T -> K)
    ensures Image(s + [x], f) == Image(s, f) + {f(x)}
  {
    var a := Image(s + [x], f);
    var b := Image(s, f) + {f(x)};
    forall k | k in a ensures k in b {
      var i :| 0 <= i < |s| + 1 && f((s + [x])[i]) == k;
      if i < |s| {
        assert (s + [x])[i] == s[i];
      }
    }
    forall k | k in b ensures k in a {
      if k == f(x) {
        assert (s + [x])[|s|] == x;
      } else {
        var i :| 0 <= i < |s| && f(s[i]) == k;
        assert (s + [x])[i] == s[i];
      }
    }
  }

  /** The bucket counts of the keys `ks`, added up. */
  function SumCounts<T, K(==)>(s: seq<T>, f: T -> K, ks: seq<K>): nat {
    if ks == [] then 0 else CountOf(s, f, ks[0]) + SumCounts(s, f, ks[1..])
  }

  predicate Distinct<K(==)>(ks: seq<K>) {
    forall i, j :: 0 <= i < j < |ks| ==> ks[i] != ks[j]
  }

  /** Among distinct keys exactly one is `v`, when `v` is one of them. */
  function Hits<K(==)>(ks: seq<K>, v: K): nat {
    if ks == [] then 0 else (if ks[0] == v then 1 else 0) + Hits(ks[1..], v)
  }

  lemma {:induction false} HitsOnce<K>(ks: seq<K>, v: K)
    requires Distinct(ks)
    ensures Hits(ks, v) == if v in ks then 1 else 0
  {
    if ks != [] {
      HitsOnce(ks[1..], v);
      if ks[0] == v {
        assert v !in ks[1..] by {
          forall j | 0 <= j < |ks[1..]| ensures ks[1..][j] != v {
            assert ks[1..][j] == ks[j + 1];
          }
        }
      }
    }
  }

  lemma {:induction false} SumCountsStep<T, K>(s: seq<T>, x: T, f: T -> K, ks: seq<K>)
    ensures SumCounts(s + [x], f, ks) == SumCounts(s, f, ks) + Hits(ks, f(x))
  {
    assert (s + [x])[..|s|] == s;
    if ks != [] {
      SumCountsStep(s, x, f, ks[1..]);
    }
  }

  /**
   * Bucketing is a partition: when every element falls into one of the distinct
   * keys `ks`, the counts of those keys add up to the length of the list.
   */
  lemma {:induction false} PartitionTotal<T, K>(s: seq<T>, f: T -> K, ks: seq<K>)
    requires Distinct(ks)
    requires forall i :: 0 <= i < |s| ==> f(s[i]) in ks
    ensures SumCounts(s, f, ks) == |s|
  {
    if s == [] {
      ZeroCounts(f, ks);
    } else {
      var p := s[..|s| - 1];
      var x := s[|s| - 1];
      assert p + [x] == s;
      PartitionTotal(p, f, ks);
      SumCountsStep(p, x, f, ks);
      HitsOnce(ks, f(x));
    }
  }

  lemma {:induction false} ZeroCounts<T, K>(f: T -> K, ks: seq<K>)
    ensures SumCounts([], f, ks) == 0
  {
    if ks != [] {
      ZeroCounts(f, ks[1..]);
    }
  }

  /**
   * A counter dictionary after `for x in s: m[f(x)] = m.get(f(x), 0) + 1`: every key's
   * count grows by its number of elements, and the keys are the old ones and the used buckets.
   */
  function AddCounts<T, K(==,!new)>(m: map<K, nat>, s: seq<T>, f: T -> K): (r: map<K, nat>)
    ensures forall k :: Get(r, k) == Get(m, k) + CountOf(s, f, k)
    ensures r.Keys == m.Keys + Image(s, f)
  {
    if s == [] then m
    else
      var p := s[..|s| - 1];
      var x := s[|s| - 1];
      assert p + [x] == s;
      ImageAppend(p, x, f);
      var before := AddCounts(m, p, f);
      before[f(x) := Get(before, f(x)) + 1]
  }

  /** The counting loop itself. */
  method Tally<T, K(==,!new)>(m: map<K, nat>, s: seq<T>, f: T -> K) returns (r: map<K, nat>)
    ensures r == AddCounts(m, s, f)
  {
    r := m;
    for i := 0 to |s|
      invariant r == AddCounts(m, s[..i], f)
    {
      AddCountsStep(m, s, f, i);
      r := r[f(s[i]) := Get(r, f(s[i])) + 1];
    }
    assert s[..|s|] == s;
  }

  /** Three counters filled in one pass over `s`, one count in each per element. */
  method Tally3<T, A(==,!new), B(==,!new), C(==,!new)>(s: seq<T>, f: T -> A, ma: map<A, nat>, g: T -> B, mb: map<B, nat>,
                                                        h: T -> C, mc: map<C, nat>)
    returns (ra: map<A, nat>, rb: map<B, nat>, rc: map<C, nat>)
    ensures ra == AddCounts(ma, s, f) && rb == AddCounts(mb, s, g) && rc == AddCounts(mc, s, h)
  {
    ra, rb, rc := ma, mb, mc;
    for i := 0 to |s|
      invariant ra == AddCounts(ma, s[..i], f)
      invariant rb == AddCounts(mb, s[..i], g)
      invariant rc == AddCounts(mc, s[..i], h)
    {
      ra := CountNext(ra, ma, s, f, i);
      rb := CountNext(rb, mb, s, g, i);
      rc := CountNext(rc, mc, s, h, i);
    }
    assert s[..|s|] == s;
  }

  /** One more element counted: `r[f(s[i])] = r.get(f(s[i]), 0) + 1`. */
  method CountNext<T, K(==,!new)>(r: map<K, nat>, m: map<K, nat>, s: seq<T>, f: T -> K, i: nat) returns (r': map<K, nat>)
    requires i < |s| && r == AddCounts(m, s[..i], f)
    ensures r' == AddCounts(m, s[..i + 1], f)
  {
    var k := f(s[i]);
    r' := r[k := Get(r, k) + 1];
    AddCountsStep(m, s, f, i);
  }

  lemma AddCountsStep<T, K(!new)>(m: map<K, nat>, s: seq<T>, f: T -> K, i: nat)
    requires i < |s|
    ensures AddCounts(m, s[..i + 1], f) == AddCounts(m, s[..i], f)[f(s[i]) := Get(AddCounts(m, s[..i], f), f(s[i])) + 1]
  {
    assert s[..i + 1][..i] == s[..i];
  }

  /** The values of the keys `ks` of a counter, added up. */
  function SumValues<K>(m: map<K, nat>, ks: seq<K>): nat {
    if ks == [] then 0 else Get(m, ks[0]) + SumValues(m, ks[1..])
  }

  lemma {:induction false} SumValuesOfCounts<T, K(!new)>(m: map<K, nat>, s: seq<T>, f: T -> K, ks: seq<K>)
    requires forall k :: k in ks ==> Get(m, k) == 0
    ensures SumValues(AddCounts(m, s, f), ks) == SumCounts(s, f, ks)
  {
    if ks != [] {
      SumValuesOfCounts(m, s, f, ks[1..]);
    }
  }

  /**
   * Counting from zero into buckets that cover every element: the counts add up to the
   * number of elements, and the buckets outside `ks` stay at zero.
   */
  lemma CountsTotal<T, K(!new)>(m: map<K, nat>, s: seq<T>, f: T -> K, ks: seq<K>)
    requires Distinct(ks)
    requires forall i :: 0 <= i < |s| ==> f(s[i]) in ks
    requires forall k :: k in ks ==> Get(m, k) == 0
    ensures SumValues(AddCounts(m, s, f), ks) == |s|
  {
    SumValuesOfCounts(m, s, f, ks);
    PartitionTotal(s, f, ks);
  }

  // ---------------------------------------------------------------------------
  // Filtering: `[x for x in s if p(x)]`
  // ---------------------------------------------------------------------------

  function Filter<T>(s: seq<T>, p: T -> bool): (r: seq<T>)
    ensures |r| == CountWhere(s, p)
    ensures forall j :: 0 <= j < |r| ==> p(r[j])
  {
    if s == [] then []
    else Filter(s[..|s| - 1], p) + (if p(s[|s| - 1]) then [s[|s| - 1]] else [])
  }

  /** `[f(x) for x in s if p(x)]`, for an `f` defined wherever `p` holds. */
  function KeepMap<T(!new), U>(s: seq<T>, p: T -> bool, f: T --> U): (r: seq<U>)
    requires forall x :: p(x) ==> f.requires(x)
    ensures |r| == |Filter(s, p)|
  {
    if s == [] then []
    else
      var n := |s| - 1;
      KeepMap(s[..n], p, f) + (if p(s[n]) then [f(s[n])] else [])
  }

  /** The `j`-th kept value is `f` of the `j`-th element that passes. */
  lemma {:induction false} KeepMapAt<T(!new), U>(s: seq<T>, p: T -> bool, f: T --> U, j: int)
    requires forall x :: p(x) ==> f.requires(x)
    requires 0 <= j < |Filter(s, p)|
    ensures p(Filter(s, p)[j]) && KeepMap(s, p, f)[j] == f(Filter(s, p)[j])
  {
    var n := |s| - 1;
    var front := s[..n];
    if j < |Filter(front, p)| {
      KeepMapAt(front, p, f, j);
    }
  }

  /** One more element of a prefix is kept exactly when it passes. */
  lemma FilterPrefixStep<T>(s: seq<T>, i: nat, p: T -> bool)
    requires i < |s|
    ensures Filter(s[..i + 1], p) == Filter(s[..i], p) + (if p(s[i]) then [s[i]] else [])
  {
    assert s[..i + 1][..i] == s[..i];
  }

  /** A filtered list is a subsequence of its input holding every element that passes. */
  lemma {:induction false} FilterSpec<T>(s: seq<T>, p: T -> bool)
    ensures Subsequence(Filter(s, p), s)
    ensures forall i :: 0 <= i < |s| && p(s[i]) ==> s[i] in Filter(s, p)
  {
    if s != [] {
      var q := s[..|s| - 1];
      var x := s[|s| - 1];
      assert q + [x] == s;
      FilterSpec(q, p);
      SubsequenceExtend(Filter(q, p), q, x);
      if p(x) {
        assert Filter(s, p) == Filter(q, p) + [x];
      } else {
        assert Filter(s, p) == Filter(q, p);
      }
      forall i | 0 <= i < |s| && p(s[i]) ensures s[i] in Filter(s, p) {
        if i < |s| - 1 {
          assert s[i] == q[i];
        }
      }
    }
  }

  /** Filtering by two tests that agree everywhere gives the same list. */
  lemma {:induction false} FilterExt<T>(s: seq<T>, p: T -> bool, q: T -> bool)
    requires forall x :: p(x) == q(x)
    ensures Filter(s, p) == Filter(s, q)
  {
    if s != [] {
      FilterExt(s[..|s| - 1], p, q);
    }
  }

  /** Filtering twice is filtering once by both tests. */
  lemma {:induction false} FilterFilter<T>(s: seq<T>, p: T -> bool, q: T -> bool, pq: T -> bool)
    requires forall x :: pq(x) == (p(x) && q(x))
    ensures Filter(Filter(s, p), q) == Filter(s, pq)
  {
    if s != [] {
      var init := s[..|s| - 1];
      var x := s[|s| - 1];
      FilterFilter(init, p, q, pq);
      var once := if p(x) then [x] else [];
      FilterAppend(Filter(init, p), once, q);
      assert Filter(once, q) == if p(x) && q(x) then [x] else [] by {
        if p(x) {
          assert once[..0] == [];
        }
      }
    }
  }

  /** Filtering by a test that holds everywhere keeps the list. */
  lemma {:induction false} FilterAll<T>(s: seq<T>, p: T -> bool)
    requires forall x :: p(x)
    ensures Filter(s, p) == s
  {
    if s != [] {
      FilterAll(s[..|s| - 1], p);
    }
  }

  lemma {:induction false} FilterNone<T>(s: seq<T>, p: T -> bool)
    requires forall x :: !p(x)
    ensures Filter(s, p) == []
  {
    if s != [] {
      FilterNone(s[..|s| - 1], p);
    }
  }

  lemma {:induction false} FilterAppend<T>(a: seq<T>, b: seq<T>, p: T -> bool)
    ensures Filter(a + b, p) == Filter(a, p) + Filter(b, p)
  {
    if b == [] {
      assert a + b == a;
    } else {
      var n := |b| - 1;
      FilterAppend(a, b[..n], p);
      assert (a + b)[..|a + b| - 1] == a + b[..n];
      assert (a + b)[|a + b| - 1] == b[n];
    }
  }

  /** `[x for s in ss for x in s if p(x)]`: each list filtered, the results concatenated. */
  function FilterEach<T>(ss: seq<seq<T>>, p: T -> bool): seq<T> {
    if ss == [] then []
    else
      var n := |ss| - 1;
      FilterEach(ss[..n], p) + Filter(ss[n], p)
  }

  lemma {:induction false} FilterEachPasses<T>(ss: seq<seq<T>>, p: T -> bool)
    ensures forall x :: x in FilterEach(ss, p) ==> p(x)
  {
    if ss != [] {
      FilterEachPasses(ss[..|ss| - 1], p);
    }
  }

  /** An element that is kept passes and comes from one of the lists. */
  lemma {:induction false} FilterEachSound<T>(ss: seq<seq<T>>, p: T -> bool, x: T)
    requires x in FilterEach(ss, p)
    ensures p(x) && exists i :: 0 <= i < |ss| && x in ss[i]
  {
    var n := |ss| - 1;
    var front := ss[..n];
    var last := Filter(ss[n], p);
    assert FilterEach(ss, p) == FilterEach(front, p) + last;
    if x in FilterEach(front, p) {
      FilterEachSound(front, p, x);
      var i :| 0 <= i < |front| && x in front[i];
      assert ss[i] == front[i];
    } else {
      var j :| 0 <= j < |last| && last[j] == x;
      FilterSpec(ss[n], p);
      SubsequenceElements(last, ss[n], j);
    }
  }

  /** An element of one of the lists that passes is kept. */
  lemma {:induction false} FilterEachComplete<T>(ss: seq<seq<T>>, p: T -> bool, x: T, i: int)
    requires 0 <= i < |ss| && x in ss[i] && p(x)
    ensures x in FilterEach(ss, p)
  {
    var n := |ss| - 1;
    var front := ss[..n];
    assert FilterEach(ss, p) == FilterEach(front, p) + Filter(ss[n], p);
    if i < n {
      assert ss[i] == front[i];
      FilterEachComplete(front, p, x, i);
    } else {
      var k :| 0 <= k < |ss[n]| && ss[n][k] == x;
      FilterSpec(ss[n], p);
    }
  }

  /** An element is kept exactly when it passes and one of the lists holds it. */
  lemma FilterEachExact<T>(ss: seq<seq<T>>, p: T -> bool)
    ensures forall x :: x in FilterEach(ss, p) <==> p(x) && exists i :: 0 <= i < |ss| && x in ss[i]
  {
    forall x ensures x in FilterEach(ss, p) <==> p(x) && exists i :: 0 <= i < |ss| && x in ss[i] {
      if x in FilterEach(ss, p) {
        FilterEachSound(ss, p, x);
      }
      if p(x) && exists i :: 0 <= i < |ss| && x in ss[i] {
        var i :| 0 <= i < |ss| && x in ss[i];
        FilterEachComplete(ss, p, x, i);
      }
    }
  }

  /** `[y for x in s for y in f(x)]`: the lists of the elements, concatenated in order. */
  function FlatMap<T, U>(s: seq<T>, f: T -> seq<U>): seq<U> {
    if s == [] then []
    else
      var n := |s| - 1;
      FlatMap(s[..n], f) + f(s[n])
  }

  /** An element is in the concatenation exactly when one element's list holds it. */
  lemma {:induction false} FlatMapExact<T, U>(s: seq<T>, f: T -> seq<U>)
    ensures forall y :: y in FlatMap(s, f) <==> exists i :: 0 <= i < |s| && y in f(s[i])
  {
    if s != [] {
      var n := |s| - 1;
      var front := s[..n];
      FlatMapExact(front, f);
      forall y ensures y in FlatMap(s, f) <==> exists i :: 0 <= i < |s| && y in f(s[i]) {
        if y in FlatMap(front, f) {
          var i :| 0 <= i < |front| && y in f(front[i]);
          assert s[i] == front[i];
        }
        if exists i :: 0 <= i < |s| && y in f(s[i]) {
          var i :| 0 <= i < |s| && y in f(s[i]);
          if i < n {
            assert s[i] == front[i];
          }
        }
      }
    }
  }

  lemma {:induction false} FilterEachAppend<T>(a: seq<seq<T>>, b: seq<seq<T>>, p: T -> bool)
    ensures FilterEach(a + b, p) == FilterEach(a, p) + FilterEach(b, p)
  {
    if b == [] {
      assert a + b == a;
    } else {
      var n := |b| - 1;
      FilterEachAppend(a, b[..n], p);
      assert (a + b)[..|a + b| - 1] == a + b[..n];
      assert (a + b)[|a + b| - 1] == b[n];
    }
  }

  // ---------------------------------------------------------------------------
  // Order-preserving de-duplication by key
  // ---------------------------------------------------------------------------

  /** The set of keys of the elements of `s`. */
  function Keys<T, K>(s: seq<T>, key: T -> K): set<K> {
    Image(s, key)
  }

  predicate DistinctKeys<T, K(==)>(s: seq<T>, key: T -> K) {
    forall i, j :: 0 <= i < j < |s| ==> key(s[i]) != key(s[j])
  }

  /**
   * The first element of each key, in input order: what a loop that keeps an element
   * when its key is not yet in `seen` and then adds the key produces.
   */
  function DedupBy<T, K(==)>(s: seq<T>, key: T -> K): (r: seq<T>)
    ensures |r| <= |s|
    ensures Keys(r, key) == Keys(s, key)
    ensures DistinctKeys(r, key)
  {
    if s == [] then []
    else
      var p := DedupBy(s[..|s| - 1], key);
      var x := s[|s| - 1];
      ImageAppend(p, x, key);
      ImageAppend(s[..|s| - 1], x, key);
      assert s[..|s| - 1] + [x] == s;
      if key(x) in Keys(p, key) then p else p + [x]
  }

  /** De-duplication keeps a subsequence of its input. */
  lemma {:induction false} DedupSubsequence<T, K>(s: seq<T>, key: T -> K)
    ensures Subsequence(DedupBy(s, key), s)
  {
    if s != [] {
      var q := s[..|s| - 1];
      var x := s[|s| - 1];
      assert q + [x] == s;
      DedupSubsequence(q, key);
      SubsequenceExtend(DedupBy(q, key), q, x);
    }
  }

  /** Each kept element is the first element of `s` with its key. */
  lemma {:induction false} DedupKeepsFirst<T, K>(s: seq<T>, key: T -> K, j: int)
    requires 0 <= j < |DedupBy(s, key)|
    ensures exists i :: 0 <= i < |s| && s[i] == DedupBy(s, key)[j]
                        && forall i' :: 0 <= i' < i ==> key(s[i']) != key(s[i])
  {
    var q := s[..|s| - 1];
    var x := s[|s| - 1];
    var p := DedupBy(q, key);
    if j < |p| {
      DedupKeepsFirst(q, key, j);
      var i :| 0 <= i < |q| && q[i] == p[j] && forall i' :: 0 <= i' < i ==> key(q[i']) != key(q[i]);
      assert s[i] == q[i];
      assert forall i' :: 0 <= i' < i ==> s[i'] == q[i'];
    } else {
      assert key(x) !in Keys(p, key) && DedupBy(s, key)[j] == x;
      forall i' | 0 <= i' < |s| - 1 ensures key(s[i']) != key(x) {
        assert key(q[i']) in Keys(q, key);
        assert s[i'] == q[i'];
      }
    }
  }

  /** Every kept element is the first element of `s` with its key. */
  lemma DedupFirstOfKey<T, K>(s: seq<T>, key: T -> K)
    ensures forall j :: 0 <= j < |DedupBy(s, key)| ==>
              exists i :: 0 <= i < |s| && s[i] == DedupBy(s, key)[j] && forall i' :: 0 <= i' < i ==> key(s[i']) != key(s[i])
  {
    var r := DedupBy(s, key);
    forall j | 0 <= j < |r|
      ensures exists i :: 0 <= i < |s| && s[i] == r[j] && forall i' :: 0 <= i' < i ==> key(s[i']) != key(s[i])
    {
      DedupKeepsFirst(s, key, j);
      var i :| 0 <= i < |s| && s[i] == r[j] && forall i' :: 0 <= i' < i ==> key(s[i']) != key(s[i]);
      assert s[i] == r[j];
    }
  }

  /** The `seen`-set loop, proved to compute `DedupBy`. */
  method DedupWithSeen<T, K(==)>(s: seq<T>, key: T -> K) returns (r: seq<T>)
    ensures r == DedupBy(s, key)
  {
    r := [];
    var seen: set<K> := {};
    for i := 0 to |s|
      invariant r == DedupBy(s[..i], key)
      invariant seen == Keys(r, key)
    {
      var x := s[i];
      assert s[..i + 1] == s[..i] + [x];
      assert s[..i + 1][..i] == s[..i];
      if key(x) !in seen {
        ImageAppend(r, x, key);
        seen := seen + {key(x)};
        r := r + [x];
      }
    }
    assert s[..|s|] == s;
  }

  // ---------------------------------------------------------------------------
  // Sampling without replacement
  // ---------------------------------------------------------------------------

  /**
   * `random.sample(pool, n)` with the random draws supplied: draw `i` picks, by its
   * remainder, one of the elements not taken yet. A sample larger than the pool raises.
   */
  function Sample<T>(pool: seq<T>, n: nat, draw: nat -> nat, i: nat): (r: seq<T>)
    requires n <= |pool|
    ensures |r| == n
    ensures forall x :: x in r ==> x in pool
    decreases n
  {
    if n == 0 then []
    else
      var k := draw(i) % |pool|;
      [pool[k]] + Sample(pool[..k] + pool[k + 1..], n - 1, draw, i + 1)
  }

  /** A sample of distinct elements has distinct elements. */
  lemma {:induction false} SampleDistinct<T>(pool: seq<T>, n: nat, draw: nat -> nat, i: nat)
    requires n <= |pool| && Distinct(pool)
    ensures Distinct(Sample(pool, n, draw, i))
    decreases n
  {
    if n > 0 {
      var k := draw(i) % |pool|;
      var left := pool[..k] + pool[k + 1..];
      assert Distinct(left) by {
        forall a, b | 0 <= a < b < |left| ensures left[a] != left[b] {
          var a' := if a < k then a else a + 1;
          var b' := if b < k then b else b + 1;
          assert left[a] == pool[a'] && left[b] == pool[b'];
        }
      }
      assert pool[k] !in left by {
        forall a | 0 <= a < |left| ensures left[a] != pool[k] {
          var a' := if a < k then a else a + 1;
          assert left[a] == pool[a'];
        }
      }
      SampleDistinct(left, n - 1, draw, i + 1);
      var rest := Sample(left, n - 1, draw, i + 1);
      var r := Sample(pool, n, draw, i);
      forall a, b | 0 <= a < b < |r| ensures r[a] != r[b] {
        assert r[b] == rest[b - 1];
        if a > 0 {
          assert r[a] == rest[a - 1];
        } else {
          assert rest[b - 1] in rest;
        }
      }
    }
  }
}
