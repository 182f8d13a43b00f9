/**
 * Runs of a step that may raise, over a list: the loops of the scrapers that build one
 * record per element and let the first exception end the whole run.
 */
module Runs {
  import opened Wrappers
  import opened Collections

  /** `[f(x) for x in s]` where `f` may raise: the first raise ends the run. */
  function MapAll<T, U>(s: seq<T>, f: T -> Result<U>): (r: Result<seq<U>>)
    ensures r.Ok? ==> |r.value| == |s|
  {
    if s == [] then Ok([])
    else
      var n := |s| - 1;
      var prefix :- MapAll(s[..n], f);
      var y :- f(s[n]);
      Ok(prefix + [y])
  }

  /** A successful run holds each element's value, in order; a raised run raises some element's error. */
  lemma {:induction false} MapAllValues<T, U>(s: seq<T>, f: T -> Result<U>)
    ensures MapAll(s, f).Ok? ==> forall i :: 0 <= i < |s| ==> f(s[i]) == Ok(MapAll(s, f).value[i])
    ensures MapAll(s, f).Err? ==> exists i :: 0 <= i < |s| && f(s[i]) == Err(MapAll(s, f).error)
  {
    if s != [] {
      var n := |s| - 1;
      MapAllValues(s[..n], f);
      assert forall i :: 0 <= i < n ==> s[..n][i] == s[i];
      if MapAll(s[..n], f).Err? {
        var i :| 0 <= i < n && f(s[..n][i]) == Err(MapAll(s[..n], f).error);
        assert s[..n][i] == s[i];
      }
    }
  }

  /** Two runs back to back, each stopped by its first raise. */
  function Then<T>(a: Result<seq<T>>, b: Result<seq<T>>): Result<seq<T>> {
    if a.Err? then a else if b.Err? then b else Ok(a.value + b.value)
  }

  /** A run succeeds exactly when no element raises. */
  lemma {:induction false} MapAllOk<T, U>(s: seq<T>, f: T -> Result<U>)
    ensures MapAll(s, f).Ok? <==> forall i :: 0 <= i < |s| ==> f(s[i]).Ok?
  {
    if s != [] {
      var n := |s| - 1;
      MapAllOk(s[..n], f);
      assert forall i :: 0 <= i < n ==> s[..n][i] == s[i];
    }
  }

  /** One more element: its value is appended, or its raise ends the run. */
  lemma MapAllStep<T, U>(s: seq<T>, x: T, f: T -> Result<U>)
    ensures MapAll(s + [x], f) == Then(MapAll(s, f), (var y :- f(x); Ok([y])))
  {
    assert (s + [x])[..|s|] == s;
  }

  lemma ThenAssociative<T>(a: Result<seq<T>>, b: Result<seq<T>>, c: Result<seq<T>>)
    ensures Then(Then(a, b), c) == Then(a, Then(b, c))
  {
    if a.Ok? && b.Ok? && c.Ok? {
      assert a.value + b.value + c.value == a.value + (b.value + c.value);
    }
  }

  lemma ThenEmpty<T>(a: Result<seq<T>>)
    ensures Then(a, Ok([])) == a
  {
    if a.Ok? {
      assert a.value + [] == a.value;
    }
  }

  /** A run over `a + b` is the run over `a` followed by the run over `b`. */
  lemma {:induction false} MapAllAppend<T, U>(a: seq<T>, b: seq<T>, f: T -> Result<U>)
    ensures MapAll(a + b, f) == Then(MapAll(a, f), MapAll(b, f))
  {
    if b == [] {
      assert a + b == a;
      ThenEmpty(MapAll(a, f));
    } else {
      var n := |b| - 1;
      MapAllAppend(a, b[..n], f);
      assert a + b == (a + b[..n]) + [b[n]];
      assert b == b[..n] + [b[n]];
      MapAllStep(a + b[..n], b[n], f);
      MapAllStep(b[..n], b[n], f);
      ThenAssociative(MapAll(a, f), MapAll(b[..n], f), (var y :- f(b[n]); Ok([y])));
    }
  }

  /** A run that raised stays raised whatever follows. */
  lemma MapAllStops<T, U>(a: seq<T>, b: seq<T>, f: T -> Result<U>)
    requires MapAll(a, f).Err?
    ensures MapAll(a + b, f) == MapAll(a, f)
  {
    MapAllAppend(a, b, f);
  }

  /** A front whose filtered run raised decides the filtered run of any longer list. */
  lemma FilteredRunStops<T, U>(front: seq<T>, back: seq<T>, p: T -> bool, f: T -> Result<U>)
    requires MapAll(Filter(front, p), f).Err?
    ensures MapAll(Filter(front + back, p), f) == MapAll(Filter(front, p), f)
  {
    FilterAppend(front, back, p);
    MapAllStops(Filter(front, p), Filter(back, p), f);
  }

  /**
   * One more element of a loop that handles only the elements passing `p`: a passing
   * one adds its value or ends the whole run with its raise; another adds nothing.
   */
  lemma FilteredRunStep<T, U>(s: seq<T>, p: T -> bool, f: T -> Result<U>, i: nat, done: seq<U>)
    requires i < |s| && MapAll(Filter(s[..i], p), f) == Ok(done)
    ensures p(s[i]) && f(s[i]).Ok? ==> MapAll(Filter(s[..i + 1], p), f) == Ok(done + [f(s[i]).value])
    ensures p(s[i]) && f(s[i]).Err? ==> MapAll(Filter(s, p), f) == Err(f(s[i]).error)
    ensures !p(s[i]) ==> MapAll(Filter(s[..i + 1], p), f) == Ok(done)
  {
    FilterPrefixStep(s, i, p);
    if p(s[i]) {
      MapAllStep(Filter(s[..i], p), s[i], f);
      if f(s[i]).Err? {
        SplitAt(s, i + 1);
        FilteredRunStops(s[..i + 1], s[i + 1..], p, f);
      }
    } else {
      assert Filter(s[..i], p) + [] == Filter(s[..i], p);
    }
  }
}
