/**
 * The two pieces of Python's string handling that the range checks rely on:
 * `str.split(sep)` with a one-character separator, and `float(text)` for
 * unsigned decimal numerals surrounded by whitespace.
 *
 * Scanning functions work on a span `[i, j)` of an unchanged string, so that
 * they can be evaluated on the literal strings of the grade tables; slice
 * lemmas connect them to the substrings that `split` hands to `float`.
 */
module PyText {
  import opened Wrappers

  predicate IsDigit(c: char) {
    '0' <= c <= '9'
  }

  /** The ASCII whitespace `float()` strips around its argument. */
  predicate IsSpace(c: char) {
    c == ' ' || c == '\t' || c == '\n' || c == '\r' || c == '\U{000B}' || c == '\U{000C}'
  }

  predicate AllDigits(s: string) {
    forall m :: 0 <= m < |s| ==> IsDigit(s[m])
  }

  predicate AllSpace(s: string) {
    forall m :: 0 <= m < |s| ==> IsSpace(s[m])
  }

  function DigitValue(c: char): (d: nat)
    ensures d <= 9
    ensures IsDigit(c) ==> d as int == c as int - '0' as int
  {
    if IsDigit(c) then c as int - '0' as int else 0
  }

  function Pow10(n: nat): (p: nat)
    ensures p >= 1
  {
    if n == 0 then 1 else 10 * Pow10(n - 1)
  }

  // ---------------------------------------------------------------------------
  // Scanning a span [i, j) of s
  // ---------------------------------------------------------------------------

  /** The first index in [i, j) holding c, or j when c does not occur there. */
  function FindIn(s: string, c: char, i: nat, j: nat): (k: nat)
    requires i <= j <= |s|
    ensures i <= k <= j
    decreases j - i
  {
    if i == j then j else if s[i] == c then i else FindIn(s, c, i + 1, j)
  }

  /** The first index in [i, j) that is not whitespace, or j. */
  function SkipSpaces(s: string, i: nat, j: nat): (k: nat)
    requires i <= j <= |s|
    ensures i <= k <= j
    decreases j - i
  {
    if i == j || !IsSpace(s[i]) then i else SkipSpaces(s, i + 1, j)
  }

  /** The end of [i, j) once trailing whitespace is dropped. */
  function TrimEnd(s: string, i: nat, j: nat): (k: nat)
    requires i <= j <= |s|
    ensures i <= k <= j
    decreases j - i
  {
    if i == j || !IsSpace(s[j - 1]) then j else TrimEnd(s, i, j - 1)
  }

  /** Whether [i, j) holds digits only. */
  function DigitsIn(s: string, i: nat, j: nat): (b: bool)
    requires i <= j <= |s|
    decreases j - i
  {
    i == j || (IsDigit(s[j - 1]) && DigitsIn(s, i, j - 1))
  }

  /** The value of the numeral in [i, j); a numeral of n digits is below 10^n. */
  function SpanValue(s: string, i: nat, j: nat): (v: nat)
    requires i <= j <= |s|
    ensures v < Pow10(j - i)
    decreases j - i
  {
    if i == j then 0 else 10 * SpanValue(s, i, j - 1) + DigitValue(s[j - 1])
  }

  /** The value of a decimal numeral, read most significant digit first. */
  function Numeral(w: string): (v: nat)
    ensures v < Pow10(|w|)
  {
    SpanValue(w, 0, |w|)
  }

  /** The decimal numeral `whole.frac`, where frac was written with fracDigits digits. */
  datatype Decimal = Decimal(whole: nat, frac: nat, fracDigits: nat)

  /** The exact value of a decimal numeral. */
  function DecimalValue(d: Decimal): (v: real)
    ensures v >= d.whole as real
    ensures d.frac < Pow10(d.fracDigits) ==> v < d.whole as real + 1.0
  {
    var p := Pow10(d.fracDigits) as real;
    if d.frac < Pow10(d.fracDigits) then
      QuotientBelowOne(d.frac as real, p);
      d.whole as real + d.frac as real / p
    else
      d.whole as real + d.frac as real / p
  }

  lemma QuotientBelowOne(x: real, p: real)
    requires 0.0 <= x < p
    ensures 0.0 <= x / p < 1.0
  {
  }

  /**
   * The numeral in [a, b) once surrounding whitespace is gone: digits with
   * at most one '.', and at least one digit.
   */
  function ParseNumeral(s: string, a: nat, b: nat): (r: Option<Decimal>)
    requires a <= b <= |s|
    ensures r.Some? ==> r.value.frac < Pow10(r.value.fracDigits)
  {
    var d := FindIn(s, '.', a, b);
    if d == b then
      if a < b && DigitsIn(s, a, b) then Some(Decimal(SpanValue(s, a, b), 0, 0)) else None
    else if (a < d || d + 1 < b) && DigitsIn(s, a, d) && DigitsIn(s, d + 1, b) then
      Some(Decimal(SpanValue(s, a, d), SpanValue(s, d + 1, b), b - d - 1))
    else
      None
  }

  /** The numeral in [i, j), surrounding whitespace ignored. */
  function ParseSpan(s: string, i: nat, j: nat): (r: Option<Decimal>)
    requires i <= j <= |s|
    ensures r.Some? ==> r.value.frac < Pow10(r.value.fracDigits)
  {
    var a := SkipSpaces(s, i, j);
    ParseNumeral(s, a, TrimEnd(s, a, j))
  }

  /** `float()` applied to the text in [i, j); None stands for ValueError. */
  function ParseFloatSpan(s: string, i: nat, j: nat): (r: Option<real>)
    requires i <= j <= |s|
    ensures r.Some? ==> r.value >= 0.0
  {
    match ParseSpan(s, i, j)
    case None => None
    case Some(d) => Some(DecimalValue(d))
  }

  /** Python's `float(text)`, restricted to unsigned decimal notation; None stands for ValueError. */
  function ParseFloat(text: string): (r: Option<real>)
    ensures r.Some? ==> r.value >= 0.0
  {
    ParseFloatSpan(text, 0, |text|)
  }

  // ---------------------------------------------------------------------------
  // str.split and str.join
  // ---------------------------------------------------------------------------

  /** `sep.join(parts)`. */
  function Join(parts: seq<string>, sep: char): string {
    if |parts| == 0 then ""
    else if |parts| == 1 then parts[0]
    else parts[0] + [sep] + Join(parts[1..], sep)
  }

  /**
   * Python's `text.split(sep)` for a one-character separator; there is
   * always a first piece, so `split(sep)[0]` never raises.
   */
  function Split(text: string, sep: char): (parts: seq<string>)
    ensures |parts| >= 1
    decreases |text|
  {
    var k := FindIn(text, sep, 0, |text|);
    if k == |text| then [text] else [text[..k]] + Split(text[k + 1..], sep)
  }

  /** `text.split(sep)` has one piece more than the text holds separators. */
  lemma {:induction false} SplitCountsSeparators(text: string, sep: char)
    ensures |Split(text, sep)| == multiset(text)[sep] + 1
    decreases |text|
  {
    var k := FindIn(text, sep, 0, |text|);
    FindInSpec(text, sep, 0, |text|);
    if k == |text| {
      assert sep !in text;
    } else {
      assert sep !in text[..k];
      assert text == text[..k] + [sep] + text[k + 1..];
      SplitCountsSeparators(text[k + 1..], sep);
    }
  }

  // ---------------------------------------------------------------------------
  // What the scanning functions find, and that it determines them
  // ---------------------------------------------------------------------------

  lemma {:induction false} FindInSpec(s: string, c: char, i: nat, j: nat)
    requires i <= j <= |s|
    ensures var k := FindIn(s, c, i, j);
            && (k < j ==> s[k] == c)
            && forall m :: i <= m < k ==> s[m] != c
    decreases j - i
  {
    if i < j && s[i] != c {
      FindInSpec(s, c, i + 1, j);
    }
  }

  lemma {:induction false} SkipSpacesSpec(s: string, i: nat, j: nat)
    requires i <= j <= |s|
    ensures var k := SkipSpaces(s, i, j);
            && (k < j ==> !IsSpace(s[k]))
            && forall m :: i <= m < k ==> IsSpace(s[m])
    decreases j - i
  {
    if i < j && IsSpace(s[i]) {
      SkipSpacesSpec(s, i + 1, j);
    }
  }

  lemma {:induction false} TrimEndSpec(s: string, i: nat, j: nat)
    requires i <= j <= |s|
    ensures var k := TrimEnd(s, i, j);
            && (i < k ==> !IsSpace(s[k - 1]))
            && forall m :: k <= m < j ==> IsSpace(s[m])
    decreases j - i
  {
    if i < j && IsSpace(s[j - 1]) {
      TrimEndSpec(s, i, j - 1);
    }
  }

  lemma {:induction false} DigitsInSpec(s: string, i: nat, j: nat)
    requires i <= j <= |s|
    ensures DigitsIn(s, i, j) <==> forall m :: i <= m < j ==> IsDigit(s[m])
    decreases j - i
  {
    if i < j {
      DigitsInSpec(s, i, j - 1);
    }
  }

  lemma {:induction false} FindInIs(s: string, c: char, i: nat, j: nat, k: nat)
    requires i <= k <= j <= |s|
    requires k < j ==> s[k] == c
    requires forall m :: i <= m < k ==> s[m] != c
    ensures FindIn(s, c, i, j) == k
  {
    FindInSpec(s, c, i, j);
  }

  lemma {:induction false} SkipSpacesIs(s: string, i: nat, j: nat, k: nat)
    requires i <= k <= j <= |s|
    requires k < j ==> !IsSpace(s[k])
    requires forall m :: i <= m < k ==> IsSpace(s[m])
    ensures SkipSpaces(s, i, j) == k
  {
    SkipSpacesSpec(s, i, j);
  }

  lemma {:induction false} TrimEndIs(s: string, i: nat, j: nat, k: nat)
    requires i <= k <= j <= |s|
    requires i < k ==> !IsSpace(s[k - 1])
    requires forall m :: k <= m < j ==> IsSpace(s[m])
    ensures TrimEnd(s, i, j) == k
  {
    TrimEndSpec(s, i, j);
  }

  // ---------------------------------------------------------------------------
  // Scanning a copy of a piece of s is scanning s at shifted indices
  // ---------------------------------------------------------------------------

  /** t is a copy of s[a..a + |t|]. */
  predicate Occurs(t: string, s: string, a: nat) {
    a + |t| <= |s| && forall m :: 0 <= m < |t| ==> t[m] == s[a + m]
  }

  lemma SliceOccurs(s: string, a: nat, b: nat)
    requires a <= b <= |s|
    ensures Occurs(s[a..b], s, a)
  {
  }

  lemma {:induction false} FindInShift(t: string, s: string, a: nat, c: char, i: nat, j: nat)
    requires Occurs(t, s, a) && i <= j <= |t|
    ensures FindIn(t, c, i, j) + a == FindIn(s, c, a + i, a + j)
  {
    var k := FindIn(t, c, i, j);
    FindInSpec(t, c, i, j);
    forall m | a + i <= m < a + k ensures s[m] != c { assert t[m - a] == s[m]; }
    if k < j { assert t[k] == s[a + k]; }
    FindInIs(s, c, a + i, a + j, k + a);
  }

  lemma {:induction false} SkipSpacesShift(t: string, s: string, a: nat, i: nat, j: nat)
    requires Occurs(t, s, a) && i <= j <= |t|
    ensures SkipSpaces(t, i, j) + a == SkipSpaces(s, a + i, a + j)
  {
    var k := SkipSpaces(t, i, j);
    SkipSpacesSpec(t, i, j);
    forall m | a + i <= m < a + k ensures IsSpace(s[m]) { assert t[m - a] == s[m]; }
    if k < j { assert t[k] == s[a + k]; }
    SkipSpacesIs(s, a + i, a + j, k + a);
  }

  lemma {:induction false} TrimEndShift(t: string, s: string, a: nat, i: nat, j: nat)
    requires Occurs(t, s, a) && i <= j <= |t|
    ensures TrimEnd(t, i, j) + a == TrimEnd(s, a + i, a + j)
  {
    var k := TrimEnd(t, i, j);
    TrimEndSpec(t, i, j);
    forall m | a + k <= m < a + j ensures IsSpace(s[m]) { assert t[m - a] == s[m]; }
    if i < k { assert t[k - 1] == s[a + k - 1]; }
    TrimEndIs(s, a + i, a + j, k + a);
  }

  lemma {:induction false} DigitsInShift(t: string, s: string, a: nat, i: nat, j: nat)
    requires Occurs(t, s, a) && i <= j <= |t|
    ensures DigitsIn(t, i, j) == DigitsIn(s, a + i, a + j)
  {
    DigitsInSpec(t, i, j);
    DigitsInSpec(s, a + i, a + j);
    if !DigitsIn(s, a + i, a + j) {
      var m :| a + i <= m < a + j && !IsDigit(s[m]);
      assert !IsDigit(t[m - a]);
    }
  }

  lemma {:induction false} SpanValueShift(t: string, s: string, a: nat, i: nat, j: nat)
    requires Occurs(t, s, a) && i <= j <= |t|
    ensures SpanValue(t, i, j) == SpanValue(s, a + i, a + j)
    decreases j - i
  {
    if i < j {
      SpanValueShift(t, s, a, i, j - 1);
      assert t[j - 1] == s[a + j - 1];
    }
  }

  /** The value of a span is the value of the numeral it holds. */
  lemma {:induction false} SpanValueIsNumeral(s: string, i: nat, j: nat)
    requires i <= j <= |s|
    ensures SpanValue(s, i, j) == Numeral(s[i..j])
  {
    SliceOccurs(s, i, j);
    SpanValueShift(s[i..j], s, i, 0, j - i);
  }

  lemma {:induction false} ParseNumeralShift(t: string, s: string, a: nat, x: nat, y: nat)
    requires Occurs(t, s, a) && x <= y <= |t|
    ensures ParseNumeral(t, x, y) == ParseNumeral(s, a + x, a + y)
  {
    FindInShift(t, s, a, '.', x, y);
    var d := FindIn(t, '.', x, y);
    DigitsInShift(t, s, a, x, y);
    DigitsInShift(t, s, a, x, d);
    SpanValueShift(t, s, a, x, y);
    SpanValueShift(t, s, a, x, d);
    if d < y {
      DigitsInShift(t, s, a, d + 1, y);
      SpanValueShift(t, s, a, d + 1, y);
    }
  }

  /** ParseSpan once the ends of the trimmed span are known. */
  lemma {:induction false} ParseSpanAt(s: string, i: nat, j: nat, a: nat, b: nat)
    requires i <= j <= |s|
    requires SkipSpaces(s, i, j) == a
    requires TrimEnd(s, a, j) == b
    ensures ParseSpan(s, i, j) == ParseNumeral(s, a, b)
  {
  }

  lemma {:induction false} ParseSpanShift(t: string, s: string, a: nat)
    requires Occurs(t, s, a)
    ensures ParseSpan(t, 0, |t|) == ParseSpan(s, a, a + |t|)
  {
    var n := |t|;
    var x := SkipSpaces(t, 0, n);
    SkipSpacesShift(t, s, a, 0, n);
    var y := TrimEnd(t, x, n);
    TrimEndShift(t, s, a, x, n);
    ParseNumeralShift(t, s, a, x, y);
    ParseSpanAt(t, 0, n, x, y);
    ParseSpanAt(s, a, a + n, a + x, a + y);
  }

  /** Parsing a substring is parsing the corresponding span of the whole string. */
  lemma {:induction false} ParseSpanSlice(s: string, a: nat, b: nat)
    requires a <= b <= |s|
    ensures ParseFloat(s[a..b]) == ParseFloatSpan(s, a, b)
  {
    SliceOccurs(s, a, b);
    ParseSpanShift(s[a..b], s, a);
  }

  // ---------------------------------------------------------------------------
  // float() reads back what a decimal numeral writes
  // ---------------------------------------------------------------------------

  /** Whitespace around a span does not change what `float()` reads from it. */
  lemma {:induction false} ParseSpanTrimmed(s: string, i: nat, a: nat, b: nat, j: nat)
    requires i <= a < b <= j <= |s|
    requires forall m :: i <= m < a ==> IsSpace(s[m])
    requires forall m :: b <= m < j ==> IsSpace(s[m])
    requires !IsSpace(s[a]) && !IsSpace(s[b - 1])
    ensures ParseSpan(s, i, j) == ParseSpan(s, a, b)
  {
    SkipSpacesIs(s, i, j, a);
    SkipSpacesIs(s, a, b, a);
    TrimEndIs(s, a, j, b);
    TrimEndIs(s, a, b, b);
  }

  /** `float()` of whitespace, then `body`, then whitespace, is `float()` of `body`. */
  lemma {:induction false} ParseFloatPadded(pre: string, body: string, post: string)
    requires AllSpace(pre) && AllSpace(post)
    requires |body| > 0 && !IsSpace(body[0]) && !IsSpace(body[|body| - 1])
    ensures ParseFloat(pre + body + post) == ParseFloat(body)
  {
    var s := pre + body + post;
    var a, b := |pre|, |pre| + |body|;
    assert forall m :: 0 <= m < a ==> s[m] == pre[m];
    assert forall m :: b <= m < |s| ==> s[m] == post[m - b];
    assert s[a] == body[0] && s[b - 1] == body[|body| - 1];
    ParseSpanTrimmed(s, 0, a, b, |s|);
    assert s[a..b] == body;
    ParseSpanSlice(s, a, b);
  }

  /** Where the scans stop on the text `w.f`. */
  lemma {:induction false} FractionScans(w: string, f: string)
    requires AllDigits(w) && AllDigits(f) && |w| + |f| > 0
    ensures var s, d := w + "." + f, |w|;
            && SkipSpaces(s, 0, |s|) == 0 && TrimEnd(s, 0, |s|) == |s|
            && FindIn(s, '.', 0, |s|) == d && DigitsIn(s, 0, d) && DigitsIn(s, d + 1, |s|)
  {
    var s := w + "." + f;
    var d, n := |w|, |s|;
    assert s[d] == '.';
    forall m | 0 <= m < d ensures IsDigit(s[m]) { assert s[m] == w[m]; }
    forall m | d < m < n ensures IsDigit(s[m]) { assert s[m] == f[m - d - 1]; }
    assert !IsSpace(s[0]) && !IsSpace(s[n - 1]);
    SkipSpacesIs(s, 0, n, 0);
    TrimEndIs(s, 0, n, n);
    FindInIs(s, '.', 0, n, d);
    DigitsInSpec(s, 0, d);
    DigitsInSpec(s, d + 1, n);
  }

  /** `float()` of a bare numeral with a fractional part. */
  lemma {:induction false} ParseFloatOfFraction(w: string, f: string)
    requires AllDigits(w) && AllDigits(f) && |w| + |f| > 0
    ensures ParseFloat(w + "." + f)
         == Some(Numeral(w) as real + Numeral(f) as real / Pow10(|f|) as real)
  {
    var s := w + "." + f;
    var d, n := |w|, |s|;
    FractionScans(w, f);
    ParseSpanAt(s, 0, n, 0, n);
    assert ParseSpan(s, 0, n) == Some(Decimal(SpanValue(s, 0, d), SpanValue(s, d + 1, n), |f|));
    assert s[0..d] == w;
    assert s[d + 1..n] == f;
    SpanValueIsNumeral(s, 0, d);
    SpanValueIsNumeral(s, d + 1, n);
  }

  /** `float()` of a bare numeral without a fractional part. */
  lemma {:induction false} ParseFloatOfWhole(w: string)
    requires AllDigits(w) && |w| > 0
    ensures ParseFloat(w) == Some(Numeral(w) as real)
  {
    var n := |w|;
    SkipSpacesIs(w, 0, n, 0);
    TrimEndIs(w, 0, n, n);
    FindInIs(w, '.', 0, n, n);
    DigitsInSpec(w, 0, n);
    assert w[0..n] == w;
    SpanValueIsNumeral(w, 0, n);
  }

  /** `float()` reads back a decimal numeral with a fractional part, whitespace around it. */
  lemma {:induction false} ParseFloatOfDecimal(pre: string, w: string, f: string, post: string)
    requires AllSpace(pre) && AllSpace(post)
    requires AllDigits(w) && AllDigits(f) && |w| + |f| > 0
    ensures ParseFloat(pre + w + "." + f + post)
         == Some(Numeral(w) as real + Numeral(f) as real / Pow10(|f|) as real)
  {
    var body := w + "." + f;
    assert body[0] == (if |w| > 0 then w[0] else '.');
    assert body[|body| - 1] == (if |f| > 0 then f[|f| - 1] else '.');
    assert pre + w + "." + f + post == pre + body + post;
    ParseFloatPadded(pre, body, post);
    ParseFloatOfFraction(w, f);
  }

  /** `float()` reads back a decimal numeral without a fractional part, whitespace around it. */
  lemma {:induction false} ParseFloatOfInteger(pre: string, w: string, post: string)
    requires AllSpace(pre) && AllSpace(post)
    requires AllDigits(w) && |w| > 0
    ensures ParseFloat(pre + w + post) == Some(Numeral(w) as real)
  {
    ParseFloatPadded(pre, w, post);
    ParseFloatOfWhole(w);
  }

  // ---------------------------------------------------------------------------
  // split reads back what join writes
  // ---------------------------------------------------------------------------

  /**
   * `float()` raises ValueError for text holding a character that is
   * neither a digit, nor whitespace, nor '.': a sign, a letter, a second
   * number's separator.
   */
  lemma {:induction false} ParseFloatRejectsStray(text: string, m: nat)
    requires m < |text| && !IsDigit(text[m]) && !IsSpace(text[m]) && text[m] != '.'
    ensures ParseFloat(text) == None
  {
    var n := |text|;
    var a := SkipSpaces(text, 0, n);
    var b := TrimEnd(text, a, n);
    SkipSpacesSpec(text, 0, n);
    TrimEndSpec(text, a, n);
    assert a <= m < b;
    var d := FindIn(text, '.', a, b);
    if d == b {
      DigitsInSpec(text, a, b);
    } else {
      FindInSpec(text, '.', a, b);
      DigitsInSpec(text, a, d);
      DigitsInSpec(text, d + 1, b);
    }
  }

  /** `float()` raises ValueError for text that is empty or all whitespace. */
  lemma {:induction false} ParseFloatRejectsBlank(text: string)
    requires AllSpace(text)
    ensures ParseFloat(text) == None
  {
    var n := |text|;
    SkipSpacesIs(text, 0, n, n);
    assert TrimEnd(text, n, n) == n;
    assert FindIn(text, '.', n, n) == n;
    assert ParseSpan(text, 0, n) == ParseNumeral(text, n, n) == None;
  }

  /** Joining the pieces of a split gives the text back. */
  lemma {:induction false} SplitThenJoin(text: string, sep: char)
    ensures Join(Split(text, sep), sep) == text
    decreases |text|
  {
    var k := FindIn(text, sep, 0, |text|);
    FindInSpec(text, sep, 0, |text|);
    if k < |text| {
      var head, tail := text[..k], text[k + 1..];
      SplitThenJoin(tail, sep);
      var rest := Split(tail, sep);
      assert Split(text, sep) == [head] + rest;
      assert ([head] + rest)[1..] == rest;
      assert text == head + [sep] + tail;
    }
  }

  /** No piece of a split holds the separator. */
  lemma {:induction false} SplitPiecesLackSeparator(text: string, sep: char)
    ensures forall p :: p in Split(text, sep) ==> sep !in p
    decreases |text|
  {
    var k := FindIn(text, sep, 0, |text|);
    FindInSpec(text, sep, 0, |text|);
    if k == |text| {
      forall m | 0 <= m < |text| ensures text[m] != sep { }
    } else {
      var head, tail := text[..k], text[k + 1..];
      SplitPiecesLackSeparator(tail, sep);
      forall m | 0 <= m < |head| ensures head[m] != sep { assert head[m] == text[m]; }
      assert Split(text, sep) == [head] + Split(tail, sep);
    }
  }

  /** The first separator of `head + [sep] + rest` is the one after head. */
  lemma {:induction false} FirstSeparator(head: string, sep: char, rest: string)
    requires sep !in head
    ensures var s := head + [sep] + rest;
            && FindIn(s, sep, 0, |s|) == |head|
            && s[..|head|] == head && s[|head| + 1..] == rest
  {
    var s := head + [sep] + rest;
    var k := |head|;
    forall m | 0 <= m < k ensures s[m] != sep { assert s[m] == head[m]; }
    FindInIs(s, sep, 0, |s|, k);
    assert s[..k] == head;
    assert s[k + 1..] == rest;
  }

  /** Splitting the join of separator-free pieces gives the pieces back. */
  lemma {:induction false} SplitJoin(parts: seq<string>, sep: char)
    requires |parts| >= 1
    requires forall p :: p in parts ==> sep !in p
    ensures Split(Join(parts, sep), sep) == parts
  {
    var s := Join(parts, sep);
    assert parts[0] in parts;
    if |parts| == 1 {
      FindInIs(s, sep, 0, |s|, |s|);
    } else {
      var rest := Join(parts[1..], sep);
      FirstSeparator(parts[0], sep, rest);
      assert forall p :: p in parts[1..] ==> p in parts;
      SplitJoin(parts[1..], sep);
      assert parts == [parts[0]] + parts[1..];
    }
  }
}
