/**
 * Text operations of Python's `str` that the modelled code relies on, on `seq<char>`:
 * the `in` substring test, ASCII `lower()`, `startswith`, single-character `split`,
 * whitespace `split()`, `strip()`, `replace` of one character, slicing `[:n]` and
 * the decimal rendering of a natural number.
 */
module Strings {

  import opened Wrappers

  // ---------------------------------------------------------------------------
  // Substring test: Python's `sub in s`
  // ---------------------------------------------------------------------------

  /** `sub` occurs in `s` starting at index `i`. */
  predicate OccursAt(s: string, sub: string, i: int) {
    0 <= i && i + |sub| <= |s| && s[i..i + |sub|] == sub
  }

  /** Python's `sub in s` for strings. */
  predicate Contains(s: string, sub: string) {
    exists i | 0 <= i <= |s| - |sub| :: OccursAt(s, sub, i)
  }

  /** Python's `any(t in s for t in subs)`. */
  predicate ContainsAny(s: string, subs: seq<string>) {
    exists k | 0 <= k < |subs| :: Contains(s, subs[k])
  }

  lemma OccursAtContains(s: string, sub: string, i: int)
    requires OccursAt(s, sub, i)
    ensures Contains(s, sub)
  {
  }

  /** Every character of an occurring substring is a character of the text. */
  lemma {:induction false} ContainsChars(s: string, sub: string, k: int)
    requires Contains(s, sub)
    requires 0 <= k < |sub|
    ensures sub[k] in s
  {
    var i :| 0 <= i <= |s| - |sub| && OccursAt(s, sub, i);
    assert s[i..i + |sub|][k] == s[i + k];
  }

  /** A one-character substring test is character membership. */
  lemma SingleCharContains(s: string, c: char)
    ensures Contains(s, [c]) <==> c in s
  {
    if c in s {
      var i :| 0 <= i < |s| && s[i] == c;
      assert OccursAt(s, [c], i);
    }
    if Contains(s, [c]) {
      ContainsChars(s, [c], 0);
    }
  }

  /** `in` is transitive: a substring of a substring of `s` is a substring of `s`. */
  lemma {:induction false} ContainsTransitive(s: string, mid: string, sub: string)
    requires Contains(s, mid) && Contains(mid, sub)
    ensures Contains(s, sub)
  {
    var i :| 0 <= i <= |s| - |mid| && OccursAt(s, mid, i);
    var j :| 0 <= j <= |mid| - |sub| && OccursAt(mid, sub, j);
    forall t | 0 <= t < |sub|
      ensures s[i + j + t] == sub[t]
    {
      assert s[i..i + |mid|][j + t] == s[i + j + t];
      assert mid[j..j + |sub|][t] == mid[j + t];
    }
    assert s[i + j..i + j + |sub|] == sub;
    assert OccursAt(s, sub, i + j);
  }

  lemma {:induction false} ContainsInLeft(a: string, b: string, sub: string)
    requires Contains(a, sub)
    ensures Contains(a + b, sub)
  {
    var i :| 0 <= i <= |a| - |sub| && OccursAt(a, sub, i);
    assert (a + b)[i..i + |sub|] == a[i..i + |sub|];
    assert OccursAt(a + b, sub, i);
  }

  lemma {:induction false} ContainsInRight(a: string, b: string, sub: string)
    requires Contains(b, sub)
    ensures Contains(a + b, sub)
  {
    var i :| 0 <= i <= |b| - |sub| && OccursAt(b, sub, i);
    assert (a + b)[|a| + i..|a| + i + |sub|] == b[i..i + |sub|];
    assert OccursAt(a + b, sub, |a| + i);
  }

  /** A text contains itself. */
  lemma ContainsSelf(s: string)
    ensures Contains(s, s)
  {
    assert OccursAt(s, s, 0);
  }

  /** `a + x + b + y + c`: a template with two holes; the text contains both fillings. */
  function Fill(a: string, x: string, b: string, y: string, c: string): (s: string)
    ensures Contains(s, x) && Contains(s, y)
  {
    ContainsSelf(x);
    ContainsSelf(y);
    ContainsInRight(a, x, x);
    ContainsInLeft(a + x, b + y + c, x);
    ContainsInRight(a + x + b, y, y);
    ContainsInLeft(a + x + b + y, c, y);
    assert a + x + (b + y + c) == a + x + b + y + c;
    a + x + b + y + c
  }

  // ---------------------------------------------------------------------------
  // ASCII case folding: Python's `lower()` on ASCII text
  // ---------------------------------------------------------------------------

  predicate IsUpper(c: char) {
    'A' <= c <= 'Z'
  }

  function LowerChar(c: char): char {
    if IsUpper(c) then (c as int + 32) as char else c
  }

  function Lower(s: string): (r: string)
    ensures |r| == |s|
    ensures forall i :: 0 <= i < |s| ==> r[i] == LowerChar(s[i])
  {
    seq(|s|, i requires 0 <= i < |s| => LowerChar(s[i]))
  }

  /** Lowered text has no upper-case ASCII letter, so an `in` test of a pattern with one fails. */
  lemma {:induction false} LowerMissesUpper(s: string, pattern: string, k: int)
    requires 0 <= k < |pattern| && IsUpper(pattern[k])
    ensures !Contains(Lower(s), pattern)
  {
    assert pattern[k] !in Lower(s);
    if Contains(Lower(s), pattern) {
      ContainsChars(Lower(s), pattern, k);
    }
  }

  /** Lowering keeps an occurrence: `q in s` implies `q.lower() in s.lower()`. */
  lemma LowerKeepsContains(s: string, q: string)
    requires Contains(s, q)
    ensures Contains(Lower(s), Lower(q))
  {
    var i :| 0 <= i <= |s| - |q| && OccursAt(s, q, i);
    assert Lower(s)[i..i + |q|] == Lower(q) by {
      forall j | 0 <= j < |q| ensures Lower(s)[i..i + |q|][j] == Lower(q)[j] {
        assert s[i..i + |q|][j] == q[j];
      }
    }
    assert OccursAt(Lower(s), Lower(q), i);
  }

  lemma LowerIdempotent(s: string)
    ensures Lower(Lower(s)) == Lower(s)
  {
  }

  lemma LowerConcat(a: string, b: string)
    ensures Lower(a + b) == Lower(a) + Lower(b)
  {
  }

  // ---------------------------------------------------------------------------
  // Prefixes and slicing
  // ---------------------------------------------------------------------------

  /** Python's `s.startswith(p)`. */
  predicate StartsWith(s: string, p: string) {
    |p| <= |s| && s[..|p|] == p
  }

  /** Python's `s[:n]` for a non-negative `n`. */
  function Take(s: string, n: nat): (r: string)
    ensures |r| <= n && |r| <= |s|
    ensures r == s[..|r|]
    ensures |s| <= n ==> r == s
  {
    if |s| <= n then s else s[..n]
  }

  // ---------------------------------------------------------------------------
  // Single-character split: Python's `s.split(c)`
  // ---------------------------------------------------------------------------

  /** The text before the first `c` (all of `s` when there is none). */
  function Before(s: string, c: char): (r: string)
    ensures c !in r
    ensures StartsWith(s, r)
    ensures |r| < |s| ==> s[|r|] == c
    ensures c !in s ==> r == s
  {
    if s == [] then [] else if s[0] == c then [] else [s[0]] + Before(s[1..], c)
  }

  /** The text before the first `c` of `a + [c] + b` is `a` when `a` has no `c`. */
  lemma {:induction false} BeforeFirst(a: string, c: char, b: string)
    requires c !in a
    ensures Before(a + [c] + b, c) == a
  {
    if a != [] {
      assert (a + [c] + b)[1..] == a[1..] + [c] + b;
      BeforeFirst(a[1..], c, b);
    }
  }

  /** The second piece of a split is the text between the first and the second separator. */
  lemma SplitSecond(a: string, c: char, b: string)
    requires c !in a
    ensures |Split(a + [c] + b, c)| >= 2
    ensures Split(a + [c] + b, c)[1] == Before(b, c)
    ensures Split(a + [c] + b, c)[1..] == Split(b, c)
  {
    var s := a + [c] + b;
    assert s[|a|] == c;
    BeforeFirst(a, c, b);
    SplitAfterFirst(s, c);
    assert s[|a| + 1..] == b;
  }

  /** Python's `s.split(c)`: the pieces between occurrences of `c`; never empty. */
  function Split(s: string, c: char): (r: seq<string>)
    ensures |r| >= 1
    ensures r[0] == Before(s, c)
    ensures forall k :: 0 <= k < |r| ==> c !in r[k]
  {
    if s == [] then [[]]
    else
      var rest := Split(s[1..], c);
      if s[0] == c then [[]] + rest
      else [[s[0]] + rest[0]] + rest[1..]
  }

  /** Without the separator there is exactly one piece, the whole text. */
  lemma {:induction false} SplitWithout(s: string, c: char)
    requires c !in s
    ensures Split(s, c) == [s]
  {
    if s != [] {
      SplitWithout(s[1..], c);
    }
  }

  /** The pieces after the first piece are the split of what follows the first separator. */
  lemma {:induction false} SplitAfterFirst(s: string, c: char)
    requires c in s
    ensures |Before(s, c)| < |s|
    ensures Split(s, c)[1..] == Split(s[|Before(s, c)| + 1..], c)
  {
    if s[0] != c {
      SplitAfterFirst(s[1..], c);
    }
  }

  /** ... so a second piece exists exactly when the separator occurs. */
  lemma SplitHasSecond(s: string, c: char)
    ensures |Split(s, c)| >= 2 <==> c in s
  {
    if c in s {
      SplitAfterFirst(s, c);
    } else {
      SplitWithout(s, c);
    }
  }

  // ---------------------------------------------------------------------------
  // Whitespace: Python's `strip()` and `split()`
  // ---------------------------------------------------------------------------

  /** ASCII whitespace as Python's `str.isspace` sees it. */
  predicate IsSpace(c: char) {
    c == ' ' || c == '\t' || c == '\n' || c == '\r' || c == '\U{B}' || c == '\U{C}'
    || ('\U{1C}' <= c <= '\U{1F}')
  }

  function StripLeft(s: string): (r: string)
    ensures |r| <= |s|
    ensures r == s[|s| - |r|..]
    ensures r != [] ==> !IsSpace(r[0])
    ensures forall k :: 0 <= k < |s| - |r| ==> IsSpace(s[k])
  {
    if s != [] && IsSpace(s[0]) then StripLeft(s[1..]) else s
  }

  function StripRight(s: string): (r: string)
    ensures |r| <= |s|
    ensures r == s[..|r|]
    ensures r != [] ==> !IsSpace(r[|r| - 1])
    ensures forall k :: |r| <= k < |s| ==> IsSpace(s[k])
  {
    if s != [] && IsSpace(s[|s| - 1]) then StripRight(s[..|s| - 1]) else s
  }

  /** Python's `s.strip()`: the text without leading and trailing whitespace. */
  function Strip(s: string): (r: string)
    ensures r != [] ==> !IsSpace(r[0]) && !IsSpace(r[|r| - 1])
  {
    StripRight(StripLeft(s))
  }

  /** Text without whitespace is left as it is. */
  lemma StripNoSpace(s: string)
    requires forall k :: 0 <= k < |s| ==> !IsSpace(s[k])
    ensures Strip(s) == s
  {
  }

  /** A leading space makes no difference to `strip()`. */
  lemma StripLeadingSpace(c: char, s: string)
    requires IsSpace(c)
    ensures Strip([c] + s) == Strip(s)
  {
    assert ([c] + s)[1..] == s;
  }

  /** The trailing run of non-whitespace characters. */
  function TrailingWord(s: string): (r: string)
    ensures forall k :: 0 <= k < |r| ==> !IsSpace(r[k])
    ensures |r| <= |s| && r == s[|s| - |r|..]
    ensures |r| < |s| ==> IsSpace(s[|s| - |r| - 1])
  {
    if s == [] || IsSpace(s[|s| - 1]) then []
    else TrailingWord(s[..|s| - 1]) + [s[|s| - 1]]
  }

  /** Python's `s.split()[-1]`: the last whitespace-separated word, `None` (an IndexError) when there is none. */
  function LastWord(s: string): (r: Option<string>)
    ensures r.Some? <==> exists k :: 0 <= k < |s| && !IsSpace(s[k])
    ensures r.Some? ==> r.value != [] && forall k :: 0 <= k < |r.value| ==> !IsSpace(r.value[k])
  {
    var t := StripRight(s);
    if t == [] then None
    else
      assert t[|t| - 1] == s[|t| - 1];
      Some(TrailingWord(t))
  }

  // ---------------------------------------------------------------------------
  // One-character replace and removal: `s.replace(a, b)`, `s.replace(a, "")`
  // ---------------------------------------------------------------------------

  function ReplaceChar(s: string, a: char, b: char): (r: string)
    ensures |r| == |s|
    ensures forall k :: 0 <= k < |s| ==> r[k] == if s[k] == a then b else s[k]
  {
    seq(|s|, k requires 0 <= k < |s| => if s[k] == a then b else s[k])
  }

  function RemoveChar(s: string, a: char): (r: string)
    ensures a !in r
    ensures |r| <= |s|
    ensures forall c :: c in r ==> c in s
  {
    if s == [] then [] else if s[0] == a then RemoveChar(s[1..], a) else [s[0]] + RemoveChar(s[1..], a)
  }

  lemma {:induction false} RemoveCharConcat(a: string, b: string, c: char)
    ensures RemoveChar(a + b, c) == RemoveChar(a, c) + RemoveChar(b, c)
  {
    if a == [] {
      assert a + b == b;
    } else {
      assert (a + b)[1..] == a[1..] + b;
      RemoveCharConcat(a[1..], b, c);
    }
  }

  lemma {:induction false} RemoveCharAbsent(s: string, c: char)
    requires c !in s
    ensures RemoveChar(s, c) == s
  {
    if s != [] {
      RemoveCharAbsent(s[1..], c);
    }
  }

  // ---------------------------------------------------------------------------
  // Decimal digits: rendering a natural number, reading one back
  // ---------------------------------------------------------------------------

  predicate IsDigit(c: char) {
    '0' <= c <= '9'
  }

  function DigitValue(c: char): nat
    requires IsDigit(c)
  {
    c as int - '0' as int
  }

  function DigitChar(d: nat): (c: char)
    requires d < 10
    ensures IsDigit(c) && DigitValue(c) == d
  {
    ('0' as int + d) as char
  }

  /** Python's `str(n)` / `f"{n}"` for a natural number. */
  function NatToString(n: nat): (r: string)
    ensures r != []
    ensures forall k :: 0 <= k < |r| ==> IsDigit(r[k])
  {
    if n < 10 then [DigitChar(n)] else NatToString(n / 10) + [DigitChar(n % 10)]
  }

  /** The value of a string of decimal digits. */
  function DigitsValue(s: string): nat
    requires forall k :: 0 <= k < |s| ==> IsDigit(s[k])
  {
    if s == [] then 0 else 10 * DigitsValue(s[..|s| - 1]) + DigitValue(s[|s| - 1])
  }

  /** Reading back the decimal rendering of `n` gives `n`. */
  lemma {:induction false} NatToStringRoundTrip(n: nat)
    ensures DigitsValue(NatToString(n)) == n
  {
    if n >= 10 {
      NatToStringRoundTrip(n / 10);
      var s := NatToString(n);
      assert s[..|s| - 1] == NatToString(n / 10);
    }
  }
}
