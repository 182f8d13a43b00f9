/**
 * Reading the upper end of a budget range such as "$15M - $20M" (in millions).
 *
 * Three scrapers and the comprehensive dashboard read it with the one-line chain
 * `float(budget.split('$')[1].split('M')[0].split('-')[1].strip())`; the AI backend's
 * statistics read it by splitting on '-' first and removing '$' and 'M'. The chain
 * cuts the text at the first 'M' before splitting on '-', so on every range of the
 * form "$aM - $bM" there is no second piece and it raises IndexError.
 * `UpperBoundAsWritten` is that chain; `UpperBound` is the reading the code evidently
 * intends, and the rest of the model uses it.
 */
module Budget {
  import opened Wrappers
  import opened Strings

  predicate AllDigits(s: string) {
    forall k :: 0 <= k < |s| ==> IsDigit(s[k])
  }

  function Pow10(k: nat): (p: nat)
    ensures p >= 1
  {
    if k == 0 then 1 else 10 * Pow10(k - 1)
  }

  /** The digits after the first '.', empty when there is no '.'. */
  function Fraction(t: string): string {
    var whole := Before(t, '.');
    if |whole| < |t| then t[|whole| + 1..] else ""
  }

  /** `t` is a plain decimal literal: digits, optionally a '.' and more digits, at least one digit. */
  predicate IsDecimal(t: string) {
    AllDigits(Before(t, '.')) && AllDigits(Fraction(t)) && |Before(t, '.')| + |Fraction(t)| > 0
  }

  /**
   * Python's `float(s)` restricted to unsigned decimal literals (surrounding
   * whitespace allowed), as an exact real; any other text raises ValueError here.
   * Signs, exponents, `inf`/`nan` and `_` separators, which Python also accepts,
   * are read as errors.
   */
  function ParseFloat(s: string): (r: Result<real>)
    ensures r.Ok? <==> IsDecimal(Strip(s))
    ensures r.Ok? ==> r.value >= 0.0
    ensures r.Err? ==> r.error == ValueError
  {
    var t := Strip(s);
    if IsDecimal(t) then
      var whole := Before(t, '.');
      var frac := Fraction(t);
      Ok(DecimalValue(whole, frac))
    else Err(ValueError)
  }

  /** The value of `whole.frac`. */
  function DecimalValue(whole: string, frac: string): (v: real)
    requires AllDigits(whole) && AllDigits(frac)
    ensures v >= 0.0
    ensures frac == [] ==> v == DigitsValue(whole) as real
  {
    if frac == [] then DigitsValue(whole) as real
    else DigitsValue(whole) as real + DigitsValue(frac) as real / Pow10(|frac|) as real
  }

  /** A digit string reads back as its own value. */
  lemma ParseDigits(y: string)
    requires y != [] && AllDigits(y)
    ensures ParseFloat(y) == Ok(DigitsValue(y) as real)
  {
    NoMarkInDigits(y);
    StripNoSpace(y);
    assert Before(y, '.') == y;
    assert Fraction(y) == "";
  }

  /** `float(str(n)) == n`. */
  lemma ParseFloatRoundTrip(n: nat)
    ensures ParseFloat(NatToString(n)) == Ok(n as real)
  {
    ParseDigits(NatToString(n));
    NatToStringRoundTrip(n);
  }

  // ---------------------------------------------------------------------------
  // The chain as written
  // ---------------------------------------------------------------------------

  /** `float(budget.split('$')[1].split('M')[0].split('-')[1].strip())`. */
  function UpperBoundAsWritten(budget: string): (r: Result<real>)
    ensures '$' !in budget ==> r == Err(IndexError)
  {
    var dollars := Split(budget, '$');
    SplitHasSecond(budget, '$');
    if |dollars| < 2 then Err(IndexError)
    else
      var beforeM := Split(dollars[1], 'M')[0];
      var dashes := Split(beforeM, '-');
      if |dashes| < 2 then Err(IndexError) else ParseFloat(Strip(dashes[1]))
  }

  /** The second '$'-piece of "$" + a + rest, when `rest` holds its next '$' after `mid`. */
  lemma DollarPiece(a: string, mid: string, tail: string)
    requires '$' !in a && '$' !in mid
    ensures Split("$" + a + mid + "$" + tail, '$')[1] == a + mid
  {
    var rest := a + mid + "$" + tail;
    LeadingSeparator('$', rest);
    ShapeDollar(a, mid, tail);
    BeforeFirst(a + mid, '$', tail);
  }

  lemma LeadingSeparator(c: char, rest: string)
    ensures Split([c] + rest, c)[1] == Before(rest, c)
  {
    ShapeEmptyPrefix(c, rest);
    SplitSecond([], c, rest);
  }

  lemma ShapeEmptyPrefix(c: char, rest: string)
    ensures [c] + rest == [] + [c] + rest
  {
  }

  lemma ShapeDollar(a: string, mid: string, tail: string)
    ensures "$" + a + mid + "$" + tail == ['$'] + (a + mid + "$" + tail)
    ensures a + mid + "$" + tail == (a + mid) + ['$'] + tail
  {
  }

  /** On "$aM - $bM" the chain raises IndexError: the text it splits on '-' is just `a`. */
  lemma AsWrittenFailsOnRange(a: string, b: string)
    requires '$' !in a && 'M' !in a && '-' !in a
    ensures UpperBoundAsWritten("$" + a + "M - $" + b + "M") == Err(IndexError)
  {
    DollarPiece(a, "M - ", b + "M");
    ShapeRange(a, b);
    BeforeFirst(a, 'M', " - ");
    SplitWithout(a, '-');
  }

  lemma ShapeRange(a: string, b: string)
    ensures "$" + a + "M - $" + b + "M" == "$" + a + "M - " + "$" + (b + "M")
    ensures a + "M - " == a + ['M'] + " - "
  {
  }

  /**
   * On "$aK - $bM" (thousands, no 'M' before the '-') the chain reads the blank after
   * the '-' and raises ValueError.
   */
  lemma AsWrittenFailsOnThousands(a: string, b: string)
    requires '$' !in a && 'M' !in a && '-' !in a
    ensures UpperBoundAsWritten("$" + a + " - $" + b + "M") == Err(ValueError)
  {
    DollarPiece(a, " - ", b + "M");
    ShapeThousands(a, b);
    assert 'M' !in a + " - ";
    SplitWithout(a + " - ", 'M');
    SplitSecond(a + " ", '-', " ");
    SplitWithout(" ", '-');
    BlankStrip();
  }

  lemma ShapeThousands(a: string, b: string)
    ensures "$" + a + " - $" + b + "M" == "$" + a + " - " + "$" + (b + "M")
    ensures a + " - " == (a + " ") + ['-'] + " "
  {
  }

  lemma BlankStrip()
    ensures Strip(" ") == ""
    ensures !IsDecimal("")
  {
  }

  /** The chain only works on the compact form "$a-bM", where it reads `b`. */
  lemma AsWrittenReadsCompactRange(a: string, b: string)
    requires '$' !in a && 'M' !in a && '-' !in a
    requires b != [] && AllDigits(b)
    ensures UpperBoundAsWritten("$" + a + "-" + b + "M") == Ok(DigitsValue(b) as real)
  {
    NoMarkInDigits(b);
    var rest := a + "-" + b + "M";
    ShapeCompact(a, b);
    LeadingSeparator('$', rest);
    SplitWithout(rest, '$');
    BeforeFirst(a + "-" + b, 'M', "");
    SplitSecond(a, '-', b);
    SplitWithout(b, '-');
    StripNoSpace(b);
    ParseDigits(b);
  }

  lemma ShapeCompact(a: string, b: string)
    ensures "$" + a + "-" + b + "M" == ['$'] + (a + "-" + b + "M")
    ensures a + "-" + b + "M" == (a + "-" + b) + ['M'] + ""
    ensures a + "-" + b == a + ['-'] + b
  {
  }

  /** A digit string holds no '$', 'M', '-', '.' or whitespace. */
  lemma NoMarkInDigits(s: string)
    requires AllDigits(s)
    ensures '$' !in s && 'M' !in s && '-' !in s && '.' !in s
    ensures forall k :: 0 <= k < |s| ==> !IsSpace(s[k])
  {
  }

  // ---------------------------------------------------------------------------
  // The intended reading
  // ---------------------------------------------------------------------------

  /**
   * The upper end of a range: the text after the first '-' (IndexError without one),
   * stripped, with '$' and 'M' removed, read as a number.
   */
  function UpperBound(budget: string): (r: Result<real>)
    ensures '-' !in budget ==> r == Err(IndexError)
    ensures r.Ok? ==> r.value >= 0.0
  {
    var parts := Split(budget, '-');
    SplitHasSecond(budget, '-');
    if |parts| < 2 then Err(IndexError)
    else ParseFloat(Strip(RemoveChar(RemoveChar(Strip(parts[1]), '$'), 'M')))
  }

  /** On "$aM - $bM" with a plain number `b` the intended reading gives `b`. */
  lemma UpperBoundOfRange(a: string, b: string)
    requires '-' !in a
    requires b != [] && AllDigits(b)
    ensures UpperBound("$" + a + "M - $" + b + "M") == Ok(DigitsValue(b) as real)
  {
    assert "$" + a + "M - $" + b + "M" == ("$" + a + "M ") + "- $" + b + "M";
    UpperBoundAfterDash("$" + a + "M ", b);
  }

  /** Whatever comes before the dash, a plain number of millions after it is what the intended reading gives. */
  lemma UpperBoundAfterDash(head: string, b: string)
    requires '-' !in head
    requires b != [] && AllDigits(b)
    ensures UpperBound(head + "- $" + b + "M") == Ok(DigitsValue(b) as real)
  {
    NoMarkInDigits(b);
    var tail := " $" + b + "M";
    ShapeUpper(head, b);
    SplitSecond(head, '-', tail);
    SplitWithout(tail, '-');
    var upper := "$" + b + "M";
    StripLeadingSpace(' ', upper);
    StripNoSpace(upper);
    RemoveCharConcat("$", b + "M", '$');
    RemoveCharAbsent(b + "M", '$');
    RemoveCharConcat(b, "M", 'M');
    RemoveCharAbsent(b, 'M');
    StripNoSpace(b);
    ParseDigits(b);
  }

  lemma ShapeUpper(head: string, b: string)
    requires '-' !in head && AllDigits(b)
    ensures head + "- $" + b + "M" == head + ['-'] + (" $" + b + "M")
    ensures '-' !in " $" + b + "M"
    ensures " $" + b + "M" == [' '] + ("$" + b + "M")
    ensures "$" + b + "M" == "$" + (b + "M")
    ensures forall k :: 0 <= k < |"$" + b + "M"| ==> !IsSpace(("$" + b + "M")[k])
    ensures RemoveChar("$", '$') == "" && RemoveChar("M", 'M') == ""
    ensures '$' !in b + "M" && b + "" == b
  {
    NoMarkInDigits(b);
    var u := "$" + b + "M";
    forall k | 0 <= k < |u| ensures !IsSpace(u[k]) {
      if 0 < k < |u| - 1 {
        assert u[k] == b[k - 1];
      }
    }
  }

  /** `value if '$' in budget else 0` with the chain as written. */
  function DollarValueAsWritten(budget: string): (r: Result<real>)
    ensures '$' !in budget ==> r == Ok(0.0)
  {
    if '$' in budget then UpperBoundAsWritten(budget) else Ok(0.0)
  }

  /** `value if '$' in budget else 0` with the intended reading. */
  function DollarValue(budget: string): (r: Result<real>)
    ensures '$' !in budget ==> r == Ok(0.0)
    ensures '$' in budget ==> r == UpperBound(budget)
  {
    if '$' in budget then UpperBound(budget) else Ok(0.0)
  }
}
