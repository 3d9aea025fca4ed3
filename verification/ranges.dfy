/**
 * Range strings such as '0.014 -  0.06' and the inclusive bound check that
 * `collect_input_data` performs on them (app.py:235 and app.py:244).
 */
module Ranges {
  import opened Wrappers
  import opened PyText

  /** The two numbers a range string denotes; nothing forces low <= high. */
  datatype NumericRange = NumericRange(low: real, high: real)

  predicate Contains(rg: NumericRange, v: real) {
    rg.low <= v <= rg.high
  }

  /**
   * The two numbers a range string denotes: the text before its first '-'
   * and the text between that '-' and the next one (or the end), each read
   * by `float()`. Spans of the unchanged string keep this evaluable on the
   * literal strings of the grade tables.
   */
  function RangeOf(text: string): (r: Option<NumericRange>)
    ensures r.Some? ==> 0.0 <= r.value.low && 0.0 <= r.value.high
  {
    var n := |text|;
    var k := FindIn(text, '-', 0, n);
    if k == n then None
    else
      match (ParseFloatSpan(text, 0, k), ParseFloatSpan(text, k + 1, FindIn(text, '-', k + 1, n)))
      case (Some(lo), Some(hi)) => Some(NumericRange(lo, hi))
      case _ => None
  }

  /** The first piece of `text.split(sep)` ends at the first separator. */
  lemma {:induction false} SplitFirst(text: string, sep: char)
    ensures Split(text, sep)[0] == text[..FindIn(text, sep, 0, |text|)]
  {
  }

  /** When the text holds the separator, the second piece of the split runs to the next one. */
  lemma {:induction false} SplitSecond(text: string, sep: char)
    requires FindIn(text, sep, 0, |text|) < |text|
    ensures var k := FindIn(text, sep, 0, |text|);
            && |Split(text, sep)| >= 2
            && Split(text, sep)[1] == text[k + 1..FindIn(text, sep, k + 1, |text|)]
  {
    var k := FindIn(text, sep, 0, |text|);
    var tail := text[k + 1..];
    SliceOccurs(text, k + 1, |text|);
    FindInShift(tail, text, k + 1, sep, 0, |tail|);
    SplitFirst(tail, sep);
    var m := FindIn(tail, sep, 0, |tail|);
    assert Split(text, sep) == [text[..k]] + Split(tail, sep);
    assert tail[..m] == text[k + 1..k + 1 + m];
  }

  /** The two pieces `float()` reads in the source are the two spans RangeOf reads. */
  lemma {:induction false} RangeOfIsSplit(text: string)
    ensures var parts := Split(text, '-');
            && ParseFloat(parts[0]) == ParseFloatSpan(text, 0, FindIn(text, '-', 0, |text|))
            && (|parts| >= 2 <==> FindIn(text, '-', 0, |text|) < |text|)
            && (|parts| >= 2 ==> RangeOf(text) == match (ParseFloat(parts[0]), ParseFloat(parts[1]))
                                                 case (Some(lo), Some(hi)) => Some(NumericRange(lo, hi))
                                                 case _ => None)
  {
    var n := |text|;
    var k := FindIn(text, '-', 0, n);
    SplitFirst(text, '-');
    ParseSpanSlice(text, 0, k);
    assert text[..k] == text[0..k];
    if k < n {
      SplitSecond(text, '-');
      ParseSpanSlice(text, k + 1, FindIn(text, '-', k + 1, n));
    }
  }

  /**
   * `float(text.split('-')[0]) <= v <= float(text.split('-')[1])`, with
   * Python's evaluation order: the chained comparison stops after its first
   * half when that half is false, so the second piece is only indexed and
   * parsed when low <= v.
   */
  function CheckBounds(text: string, v: real): (r: Result<bool, Exception>)
    ensures RangeOf(text).Some? ==> r == Success(Contains(RangeOf(text).value, v))
    ensures r.Failure? ==> RangeOf(text).None?
  {
    RangeOfIsSplit(text);
    var parts := Split(text, '-');
    match ParseFloat(parts[0])
    case None => Failure(ValueError(parts[0]))
    case Some(lo) =>
      if !(lo <= v) then Success(false)
      else if |parts| < 2 then Failure(IndexError)
      else
        match ParseFloat(parts[1])
        case None => Failure(ValueError(parts[1]))
        case Some(hi) => Success(v <= hi)
  }

  /**
   * A value below the first number is rejected without raising, even when
   * the rest of the range string is missing or malformed.
   */
  lemma ChainedComparisonStopsEarly(text: string, v: real)
    requires ParseFloat(Split(text, '-')[0]).Some?
    requires v < ParseFloat(Split(text, '-')[0]).value
    ensures CheckBounds(text, v) == Success(false)
  {
  }

  /**
   * A range string without '-' whose one number does not exceed the value
   * makes `split('-')[1]` raise IndexError.
   */
  lemma {:induction false} MissingSeparatorRaises(text: string, v: real)
    requires '-' !in text
    requires ParseFloat(text).Some? && ParseFloat(text).value <= v
    ensures CheckBounds(text, v) == Failure(IndexError)
  {
    FindInIs(text, '-', 0, |text|, |text|);
    assert Split(text, '-') == [text];
  }

  /** The range string `lo + "-" + hi` for two pieces without '-' denotes their two numbers. */
  lemma {:induction false} RangeOfPieces(lo: string, hi: string)
    requires '-' !in lo && '-' !in hi
    ensures RangeOf(lo + "-" + hi)
         == if ParseFloat(lo).Some? && ParseFloat(hi).Some?
            then Some(NumericRange(ParseFloat(lo).value, ParseFloat(hi).value))
            else None
  {
    SplitJoin([lo, hi], '-');
    assert Join([lo, hi], '-') == lo + "-" + hi;
    RangeOfIsSplit(lo + "-" + hi);
  }

  /**
   * The decimal numeral a span holds, once the positions of its first and
   * last non-blank characters and of its '.' are known.
   */
  lemma {:induction false} DecimalSpanAt(s: string, i: nat, j: nat, a: nat, d: nat, e: nat, b: nat, whole: nat, frac: nat)
    requires i <= j <= |s| && e == d + 1
    requires SkipSpaces(s, i, j) == a && TrimEnd(s, a, j) == b && FindIn(s, '.', a, b) == d && d < b
    requires DigitsIn(s, a, d) && DigitsIn(s, e, b) && (a < d || e < b)
    requires SpanValue(s, a, d) == whole && SpanValue(s, e, b) == frac
    ensures ParseSpan(s, i, j) == Some(Decimal(whole, frac, b - e))
  {
    ParseSpanAt(s, i, j, a, b);
  }

  /**
   * Where the '-' of a range string is (k, with the second piece from j on),
   * and the two decimal numerals on either side of it.
   */
  predicate Spans(text: string, n: nat, k: nat, j: nat, lo: Decimal, hi: Decimal) {
    && n == |text| && j == k + 1 && k < n
    && FindIn(text, '-', 0, n) == k && FindIn(text, '-', j, n) == n
    && ParseSpan(text, 0, k) == Some(lo) && ParseSpan(text, j, n) == Some(hi)
  }

  /** The text holds exactly one '-'. */
  predicate OneSeparator(text: string) {
    var k := FindIn(text, '-', 0, |text|);
    k < |text| && FindIn(text, '-', k + 1, |text|) == |text|
  }

  /** `text.split('-')` has exactly two pieces exactly when the text holds one '-'. */
  lemma {:induction false} OneSeparatorTwoPieces(text: string)
    ensures OneSeparator(text) <==> |Split(text, '-')| == 2
    ensures OneSeparator(text) <==> multiset(text)['-'] == 1
  {
    SplitCountsSeparators(text, '-');
    var n := |text|;
    var k := FindIn(text, '-', 0, n);
    if k < n {
      var tail := text[k + 1..];
      SliceOccurs(text, k + 1, n);
      FindInShift(tail, text, k + 1, '-', 0, |tail|);
      assert Split(text, '-') == [text[..k]] + Split(tail, '-');
      var m := FindIn(tail, '-', 0, |tail|);
      if m < |tail| {
        assert Split(tail, '-') == [tail[..m]] + Split(tail[m + 1..], '-');
      }
    }
  }

  /**
   * A range string whose separator and two decimal spans are known denotes
   * their values, and holds no other '-'.
   */
  lemma {:induction false} RangeOfAt(text: string, n: nat, k: nat, j: nat, lo: Decimal, hi: Decimal, low: real, high: real)
    requires Spans(text, n, k, j, lo, hi)
    requires DecimalValue(lo) == low && DecimalValue(hi) == high
    ensures RangeOf(text) == Some(NumericRange(low, high))
    ensures OneSeparator(text)
  {
  }
}
