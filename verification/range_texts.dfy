/**
 * What `float()` reads from each range string of the two grade tables
 * (app.py:76-143), plus the corrected Boss coarse-grade string.
 *
 * For each string: Dashes* says where its '-' is and that no second '-'
 * follows, Low* and High* say which decimal numeral stands on either side
 * of it and what that numeral is worth, and Reads* puts the three together
 * into the pair of numbers RangeOf denotes. The facts are kept in separate
 * lemmas so that each one is evaluated on its literal in a small context.
 */
module RangeTexts {
  import opened Wrappers
  import opened PyText
  import opened Ranges

  // '0.6 - 0.33'
  lemma {:induction false} Dashes0p6To0p33()
    ensures FindIn("0.6 - 0.33", '-', 0, 10) == 4 && FindIn("0.6 - 0.33", '-', 5, 10) == 10
  {
  }

  lemma {:induction false} Low0p6To0p33()
    ensures ParseSpan("0.6 - 0.33", 0, 4) == Some(Decimal(0, 6, 1)) && DecimalValue(Decimal(0, 6, 1)) == 0.6
  {
    DecimalSpanAt("0.6 - 0.33", 0, 4, 0, 1, 2, 3, 0, 6);
  }

  lemma {:induction false} High0p6To0p33()
    ensures ParseSpan("0.6 - 0.33", 5, 10) == Some(Decimal(0, 33, 2)) && DecimalValue(Decimal(0, 33, 2)) == 0.33
  {
    DecimalSpanAt("0.6 - 0.33", 5, 10, 6, 7, 8, 10, 0, 33);
  }

  lemma {:induction false} Reads0p6To0p33()
    ensures RangeOf("0.6 - 0.33") == Some(NumericRange(0.6, 0.33))
    ensures OneSeparator("0.6 - 0.33")
  {
    Dashes0p6To0p33();
    Low0p6To0p33();
    High0p6To0p33();
    RangeOfAt("0.6 - 0.33", 10, 4, 5, Decimal(0, 6, 1), Decimal(0, 33, 2), 0.6, 0.33);
  }

  // '0.014 -  0.06'
  lemma {:induction false} Dashes0p014To0p06Wide()
    ensures FindIn("0.014 -  0.06", '-', 0, 13) == 6 && FindIn("0.014 -  0.06", '-', 7, 13) == 13
  {
  }

  lemma {:induction false} Low0p014To0p06Wide()
    ensures ParseSpan("0.014 -  0.06", 0, 6) == Some(Decimal(0, 14, 3)) && DecimalValue(Decimal(0, 14, 3)) == 0.014
  {
    DecimalSpanAt("0.014 -  0.06", 0, 6, 0, 1, 2, 5, 0, 14);
  }

  lemma {:induction false} High0p014To0p06Wide()
    ensures ParseSpan("0.014 -  0.06", 7, 13) == Some(Decimal(0, 6, 2)) && DecimalValue(Decimal(0, 6, 2)) == 0.06
  {
    DecimalSpanAt("0.014 -  0.06", 7, 13, 9, 10, 11, 13, 0, 6);
  }

  lemma {:induction false} Reads0p014To0p06Wide()
    ensures RangeOf("0.014 -  0.06") == Some(NumericRange(0.014, 0.06))
    ensures OneSeparator("0.014 -  0.06")
  {
    Dashes0p014To0p06Wide();
    Low0p014To0p06Wide();
    High0p014To0p06Wide();
    RangeOfAt("0.014 -  0.06", 13, 6, 7, Decimal(0, 14, 3), Decimal(0, 6, 2), 0.014, 0.06);
  }

  // '0.0020 - 0.014'
  lemma {:induction false} Dashes0p0020To0p014()
    ensures FindIn("0.0020 - 0.014", '-', 0, 14) == 7 && FindIn("0.0020 - 0.014", '-', 8, 14) == 14
  {
  }

  lemma {:induction false} Low0p0020To0p014()
    ensures ParseSpan("0.0020 - 0.014", 0, 7) == Some(Decimal(0, 20, 4)) && DecimalValue(Decimal(0, 20, 4)) == 0.0020
  {
    DecimalSpanAt("0.0020 - 0.014", 0, 7, 0, 1, 2, 6, 0, 20);
  }

  lemma {:induction false} High0p0020To0p014()
    ensures ParseSpan("0.0020 - 0.014", 8, 14) == Some(Decimal(0, 14, 3)) && DecimalValue(Decimal(0, 14, 3)) == 0.014
  {
    DecimalSpanAt("0.0020 - 0.014", 8, 14, 9, 10, 11, 14, 0, 14);
  }

  lemma {:induction false} Reads0p0020To0p014()
    ensures RangeOf("0.0020 - 0.014") == Some(NumericRange(0.0020, 0.014))
    ensures OneSeparator("0.0020 - 0.014")
  {
    Dashes0p0020To0p014();
    Low0p0020To0p014();
    High0p0020To0p014();
    RangeOfAt("0.0020 - 0.014", 14, 7, 8, Decimal(0, 20, 4), Decimal(0, 14, 3), 0.0020, 0.014);
  }

  // '0.09 - 0.22'
  lemma {:induction false} Dashes0p09To0p22()
    ensures FindIn("0.09 - 0.22", '-', 0, 11) == 5 && FindIn("0.09 - 0.22", '-', 6, 11) == 11
  {
  }

  lemma {:induction false} Low0p09To0p22()
    ensures ParseSpan("0.09 - 0.22", 0, 5) == Some(Decimal(0, 9, 2)) && DecimalValue(Decimal(0, 9, 2)) == 0.09
  {
    DecimalSpanAt("0.09 - 0.22", 0, 5, 0, 1, 2, 4, 0, 9);
  }

  lemma {:induction false} High0p09To0p22()
    ensures ParseSpan("0.09 - 0.22", 6, 11) == Some(Decimal(0, 22, 2)) && DecimalValue(Decimal(0, 22, 2)) == 0.22
  {
    DecimalSpanAt("0.09 - 0.22", 6, 11, 7, 8, 9, 11, 0, 22);
  }

  lemma {:induction false} Reads0p09To0p22()
    ensures RangeOf("0.09 - 0.22") == Some(NumericRange(0.09, 0.22))
    ensures OneSeparator("0.09 - 0.22")
  {
    Dashes0p09To0p22();
    Low0p09To0p22();
    High0p09To0p22();
    RangeOfAt("0.09 - 0.22", 11, 5, 6, Decimal(0, 9, 2), Decimal(0, 22, 2), 0.09, 0.22);
  }

  // '0.022 -  0.09'
  lemma {:induction false} Dashes0p022To0p09Wide()
    ensures FindIn("0.022 -  0.09", '-', 0, 13) == 6 && FindIn("0.022 -  0.09", '-', 7, 13) == 13
  {
  }

  lemma {:induction false} Low0p022To0p09Wide()
    ensures ParseSpan("0.022 -  0.09", 0, 6) == Some(Decimal(0, 22, 3)) && DecimalValue(Decimal(0, 22, 3)) == 0.022
  {
    DecimalSpanAt("0.022 -  0.09", 0, 6, 0, 1, 2, 5, 0, 22);
  }

  lemma {:induction false} High0p022To0p09Wide()
    ensures ParseSpan("0.022 -  0.09", 7, 13) == Some(Decimal(0, 9, 2)) && DecimalValue(Decimal(0, 9, 2)) == 0.09
  {
    DecimalSpanAt("0.022 -  0.09", 7, 13, 9, 10, 11, 13, 0, 9);
  }

  lemma {:induction false} Reads0p022To0p09Wide()
    ensures RangeOf("0.022 -  0.09") == Some(NumericRange(0.022, 0.09))
    ensures OneSeparator("0.022 -  0.09")
  {
    Dashes0p022To0p09Wide();
    Low0p022To0p09Wide();
    High0p022To0p09Wide();
    RangeOfAt("0.022 -  0.09", 13, 6, 7, Decimal(0, 22, 3), Decimal(0, 9, 2), 0.022, 0.09);
  }

  // '0.0025 - 0.022'
  lemma {:induction false} Dashes0p0025To0p022()
    ensures FindIn("0.0025 - 0.022", '-', 0, 14) == 7 && FindIn("0.0025 - 0.022", '-', 8, 14) == 14
  {
  }

  lemma {:induction false} Low0p0025To0p022()
    ensures ParseSpan("0.0025 - 0.022", 0, 7) == Some(Decimal(0, 25, 4)) && DecimalValue(Decimal(0, 25, 4)) == 0.0025
  {
    DecimalSpanAt("0.0025 - 0.022", 0, 7, 0, 1, 2, 6, 0, 25);
  }

  lemma {:induction false} High0p0025To0p022()
    ensures ParseSpan("0.0025 - 0.022", 8, 14) == Some(Decimal(0, 22, 3)) && DecimalValue(Decimal(0, 22, 3)) == 0.022
  {
    DecimalSpanAt("0.0025 - 0.022", 8, 14, 9, 10, 11, 14, 0, 22);
  }

  lemma {:induction false} Reads0p0025To0p022()
    ensures RangeOf("0.0025 - 0.022") == Some(NumericRange(0.0025, 0.022))
    ensures OneSeparator("0.0025 - 0.022")
  {
    Dashes0p0025To0p022();
    Low0p0025To0p022();
    High0p0025To0p022();
    RangeOfAt("0.0025 - 0.022", 14, 7, 8, Decimal(0, 25, 4), Decimal(0, 22, 3), 0.0025, 0.022);
  }

  // '0.06 - 0.18'
  lemma {:induction false} Dashes0p06To0p18()
    ensures FindIn("0.06 - 0.18", '-', 0, 11) == 5 && FindIn("0.06 - 0.18", '-', 6, 11) == 11
  {
  }

  lemma {:induction false} Low0p06To0p18()
    ensures ParseSpan("0.06 - 0.18", 0, 5) == Some(Decimal(0, 6, 2)) && DecimalValue(Decimal(0, 6, 2)) == 0.06
  {
    DecimalSpanAt("0.06 - 0.18", 0, 5, 0, 1, 2, 4, 0, 6);
  }

  lemma {:induction false} High0p06To0p18()
    ensures ParseSpan("0.06 - 0.18", 6, 11) == Some(Decimal(0, 18, 2)) && DecimalValue(Decimal(0, 18, 2)) == 0.18
  {
    DecimalSpanAt("0.06 - 0.18", 6, 11, 7, 8, 9, 11, 0, 18);
  }

  lemma {:induction false} Reads0p06To0p18()
    ensures RangeOf("0.06 - 0.18") == Some(NumericRange(0.06, 0.18))
    ensures OneSeparator("0.06 - 0.18")
  {
    Dashes0p06To0p18();
    Low0p06To0p18();
    High0p06To0p18();
    RangeOfAt("0.06 - 0.18", 11, 5, 6, Decimal(0, 6, 2), Decimal(0, 18, 2), 0.06, 0.18);
  }

  // '0.06 - 0.27'
  lemma {:induction false} Dashes0p06To0p27()
    ensures FindIn("0.06 - 0.27", '-', 0, 11) == 5 && FindIn("0.06 - 0.27", '-', 6, 11) == 11
  {
  }

  lemma {:induction false} Low0p06To0p27()
    ensures ParseSpan("0.06 - 0.27", 0, 5) == Some(Decimal(0, 6, 2)) && DecimalValue(Decimal(0, 6, 2)) == 0.06
  {
    DecimalSpanAt("0.06 - 0.27", 0, 5, 0, 1, 2, 4, 0, 6);
  }

  lemma {:induction false} High0p06To0p27()
    ensures ParseSpan("0.06 - 0.27", 6, 11) == Some(Decimal(0, 27, 2)) && DecimalValue(Decimal(0, 27, 2)) == 0.27
  {
    DecimalSpanAt("0.06 - 0.27", 6, 11, 7, 8, 9, 11, 0, 27);
  }

  lemma {:induction false} Reads0p06To0p27()
    ensures RangeOf("0.06 - 0.27") == Some(NumericRange(0.06, 0.27))
    ensures OneSeparator("0.06 - 0.27")
  {
    Dashes0p06To0p27();
    Low0p06To0p27();
    High0p06To0p27();
    RangeOfAt("0.06 - 0.27", 11, 5, 6, Decimal(0, 6, 2), Decimal(0, 27, 2), 0.06, 0.27);
  }

  // '0.01 -  0.018'
  lemma {:induction false} Dashes0p01To0p018Wide()
    ensures FindIn("0.01 -  0.018", '-', 0, 13) == 5 && FindIn("0.01 -  0.018", '-', 6, 13) == 13
  {
  }

  lemma {:induction false} Low0p01To0p018Wide()
    ensures ParseSpan("0.01 -  0.018", 0, 5) == Some(Decimal(0, 1, 2)) && DecimalValue(Decimal(0, 1, 2)) == 0.01
  {
    DecimalSpanAt("0.01 -  0.018", 0, 5, 0, 1, 2, 4, 0, 1);
  }

  lemma {:induction false} High0p01To0p018Wide()
    ensures ParseSpan("0.01 -  0.018", 6, 13) == Some(Decimal(0, 18, 3)) && DecimalValue(Decimal(0, 18, 3)) == 0.018
  {
    DecimalSpanAt("0.01 -  0.018", 6, 13, 8, 9, 10, 13, 0, 18);
  }

  lemma {:induction false} Reads0p01To0p018Wide()
    ensures RangeOf("0.01 -  0.018") == Some(NumericRange(0.01, 0.018))
    ensures OneSeparator("0.01 -  0.018")
  {
    Dashes0p01To0p018Wide();
    Low0p01To0p018Wide();
    High0p01To0p018Wide();
    RangeOfAt("0.01 -  0.018", 13, 5, 6, Decimal(0, 1, 2), Decimal(0, 18, 3), 0.01, 0.018);
  }

  // '0.10 - 0.27'
  lemma {:induction false} Dashes0p10To0p27()
    ensures FindIn("0.10 - 0.27", '-', 0, 11) == 5 && FindIn("0.10 - 0.27", '-', 6, 11) == 11
  {
  }

  lemma {:induction false} Low0p10To0p27()
    ensures ParseSpan("0.10 - 0.27", 0, 5) == Some(Decimal(0, 10, 2)) && DecimalValue(Decimal(0, 10, 2)) == 0.10
  {
    DecimalSpanAt("0.10 - 0.27", 0, 5, 0, 1, 2, 4, 0, 10);
  }

  lemma {:induction false} High0p10To0p27()
    ensures ParseSpan("0.10 - 0.27", 6, 11) == Some(Decimal(0, 27, 2)) && DecimalValue(Decimal(0, 27, 2)) == 0.27
  {
    DecimalSpanAt("0.10 - 0.27", 6, 11, 7, 8, 9, 11, 0, 27);
  }

  lemma {:induction false} Reads0p10To0p27()
    ensures RangeOf("0.10 - 0.27") == Some(NumericRange(0.10, 0.27))
    ensures OneSeparator("0.10 - 0.27")
  {
    Dashes0p10To0p27();
    Low0p10To0p27();
    High0p10To0p27();
    RangeOfAt("0.10 - 0.27", 11, 5, 6, Decimal(0, 10, 2), Decimal(0, 27, 2), 0.10, 0.27);
  }

  // '0.01 - 0.043'
  lemma {:induction false} Dashes0p01To0p043()
    ensures FindIn("0.01 - 0.043", '-', 0, 12) == 5 && FindIn("0.01 - 0.043", '-', 6, 12) == 12
  {
  }

  lemma {:induction false} Low0p01To0p043()
    ensures ParseSpan("0.01 - 0.043", 0, 5) == Some(Decimal(0, 1, 2)) && DecimalValue(Decimal(0, 1, 2)) == 0.01
  {
    DecimalSpanAt("0.01 - 0.043", 0, 5, 0, 1, 2, 4, 0, 1);
  }

  lemma {:induction false} High0p01To0p043()
    ensures ParseSpan("0.01 - 0.043", 6, 12) == Some(Decimal(0, 43, 3)) && DecimalValue(Decimal(0, 43, 3)) == 0.043
  {
    DecimalSpanAt("0.01 - 0.043", 6, 12, 7, 8, 9, 12, 0, 43);
  }

  lemma {:induction false} Reads0p01To0p043()
    ensures RangeOf("0.01 - 0.043") == Some(NumericRange(0.01, 0.043))
    ensures OneSeparator("0.01 - 0.043")
  {
    Dashes0p01To0p043();
    Low0p01To0p043();
    High0p01To0p043();
    RangeOfAt("0.01 - 0.043", 12, 5, 6, Decimal(0, 1, 2), Decimal(0, 43, 3), 0.01, 0.043);
  }

  // '0.075 - 0.46'
  lemma {:induction false} Dashes0p075To0p46()
    ensures FindIn("0.075 - 0.46", '-', 0, 12) == 6 && FindIn("0.075 - 0.46", '-', 7, 12) == 12
  {
  }

  lemma {:induction false} Low0p075To0p46()
    ensures ParseSpan("0.075 - 0.46", 0, 6) == Some(Decimal(0, 75, 3)) && DecimalValue(Decimal(0, 75, 3)) == 0.075
  {
    DecimalSpanAt("0.075 - 0.46", 0, 6, 0, 1, 2, 5, 0, 75);
  }

  lemma {:induction false} High0p075To0p46()
    ensures ParseSpan("0.075 - 0.46", 7, 12) == Some(Decimal(0, 46, 2)) && DecimalValue(Decimal(0, 46, 2)) == 0.46
  {
    DecimalSpanAt("0.075 - 0.46", 7, 12, 8, 9, 10, 12, 0, 46);
  }

  lemma {:induction false} Reads0p075To0p46()
    ensures RangeOf("0.075 - 0.46") == Some(NumericRange(0.075, 0.46))
    ensures OneSeparator("0.075 - 0.46")
  {
    Dashes0p075To0p46();
    Low0p075To0p46();
    High0p075To0p46();
    RangeOfAt("0.075 - 0.46", 12, 6, 7, Decimal(0, 75, 3), Decimal(0, 46, 2), 0.075, 0.46);
  }

  // '0.018 -  0.075'
  lemma {:induction false} Dashes0p018To0p075Wide()
    ensures FindIn("0.018 -  0.075", '-', 0, 14) == 6 && FindIn("0.018 -  0.075", '-', 7, 14) == 14
  {
  }

  lemma {:induction false} Low0p018To0p075Wide()
    ensures ParseSpan("0.018 -  0.075", 0, 6) == Some(Decimal(0, 18, 3)) && DecimalValue(Decimal(0, 18, 3)) == 0.018
  {
    DecimalSpanAt("0.018 -  0.075", 0, 6, 0, 1, 2, 5, 0, 18);
  }

  lemma {:induction false} High0p018To0p075Wide()
    ensures ParseSpan("0.018 -  0.075", 7, 14) == Some(Decimal(0, 75, 3)) && DecimalValue(Decimal(0, 75, 3)) == 0.075
  {
    DecimalSpanAt("0.018 -  0.075", 7, 14, 9, 10, 11, 14, 0, 75);
  }

  lemma {:induction false} Reads0p018To0p075Wide()
    ensures RangeOf("0.018 -  0.075") == Some(NumericRange(0.018, 0.075))
    ensures OneSeparator("0.018 -  0.075")
  {
    Dashes0p018To0p075Wide();
    Low0p018To0p075Wide();
    High0p018To0p075Wide();
    RangeOfAt("0.018 -  0.075", 14, 6, 7, Decimal(0, 18, 3), Decimal(0, 75, 3), 0.018, 0.075);
  }

  // '0.0025 - 0.018'
  lemma {:induction false} Dashes0p0025To0p018()
    ensures FindIn("0.0025 - 0.018", '-', 0, 14) == 7 && FindIn("0.0025 - 0.018", '-', 8, 14) == 14
  {
  }

  lemma {:induction false} Low0p0025To0p018()
    ensures ParseSpan("0.0025 - 0.018", 0, 7) == Some(Decimal(0, 25, 4)) && DecimalValue(Decimal(0, 25, 4)) == 0.0025
  {
    DecimalSpanAt("0.0025 - 0.018", 0, 7, 0, 1, 2, 6, 0, 25);
  }

  lemma {:induction false} High0p0025To0p018()
    ensures ParseSpan("0.0025 - 0.018", 8, 14) == Some(Decimal(0, 18, 3)) && DecimalValue(Decimal(0, 18, 3)) == 0.018
  {
    DecimalSpanAt("0.0025 - 0.018", 8, 14, 9, 10, 11, 14, 0, 18);
  }

  lemma {:induction false} Reads0p0025To0p018()
    ensures RangeOf("0.0025 - 0.018") == Some(NumericRange(0.0025, 0.018))
    ensures OneSeparator("0.0025 - 0.018")
  {
    Dashes0p0025To0p018();
    Low0p0025To0p018();
    High0p0025To0p018();
    RangeOfAt("0.0025 - 0.018", 14, 7, 8, Decimal(0, 25, 4), Decimal(0, 18, 3), 0.0025, 0.018);
  }

  // '0.09 - 0.54'
  lemma {:induction false} Dashes0p09To0p54()
    ensures FindIn("0.09 - 0.54", '-', 0, 11) == 5 && FindIn("0.09 - 0.54", '-', 6, 11) == 11
  {
  }

  lemma {:induction false} Low0p09To0p54()
    ensures ParseSpan("0.09 - 0.54", 0, 5) == Some(Decimal(0, 9, 2)) && DecimalValue(Decimal(0, 9, 2)) == 0.09
  {
    DecimalSpanAt("0.09 - 0.54", 0, 5, 0, 1, 2, 4, 0, 9);
  }

  lemma {:induction false} High0p09To0p54()
    ensures ParseSpan("0.09 - 0.54", 6, 11) == Some(Decimal(0, 54, 2)) && DecimalValue(Decimal(0, 54, 2)) == 0.54
  {
    DecimalSpanAt("0.09 - 0.54", 6, 11, 7, 8, 9, 11, 0, 54);
  }

  lemma {:induction false} Reads0p09To0p54()
    ensures RangeOf("0.09 - 0.54") == Some(NumericRange(0.09, 0.54))
    ensures OneSeparator("0.09 - 0.54")
  {
    Dashes0p09To0p54();
    Low0p09To0p54();
    High0p09To0p54();
    RangeOfAt("0.09 - 0.54", 11, 5, 6, Decimal(0, 9, 2), Decimal(0, 54, 2), 0.09, 0.54);
  }

  // '0.01 - 0.020'
  lemma {:induction false} Dashes0p01To0p020()
    ensures FindIn("0.01 - 0.020", '-', 0, 12) == 5 && FindIn("0.01 - 0.020", '-', 6, 12) == 12
  {
  }

  lemma {:induction false} Low0p01To0p020()
    ensures ParseSpan("0.01 - 0.020", 0, 5) == Some(Decimal(0, 1, 2)) && DecimalValue(Decimal(0, 1, 2)) == 0.01
  {
    DecimalSpanAt("0.01 - 0.020", 0, 5, 0, 1, 2, 4, 0, 1);
  }

  lemma {:induction false} High0p01To0p020()
    ensures ParseSpan("0.01 - 0.020", 6, 12) == Some(Decimal(0, 20, 3)) && DecimalValue(Decimal(0, 20, 3)) == 0.020
  {
    DecimalSpanAt("0.01 - 0.020", 6, 12, 7, 8, 9, 12, 0, 20);
  }

  lemma {:induction false} Reads0p01To0p020()
    ensures RangeOf("0.01 - 0.020") == Some(NumericRange(0.01, 0.020))
    ensures OneSeparator("0.01 - 0.020")
  {
    Dashes0p01To0p020();
    Low0p01To0p020();
    High0p01To0p020();
    RangeOfAt("0.01 - 0.020", 12, 5, 6, Decimal(0, 1, 2), Decimal(0, 20, 3), 0.01, 0.020);
  }

  // '0.00125 - 0.010'
  lemma {:induction false} Dashes0p00125To0p010()
    ensures FindIn("0.00125 - 0.010", '-', 0, 15) == 8 && FindIn("0.00125 - 0.010", '-', 9, 15) == 15
  {
  }

  lemma {:induction false} Low0p00125To0p010()
    ensures ParseSpan("0.00125 - 0.010", 0, 8) == Some(Decimal(0, 125, 5)) && DecimalValue(Decimal(0, 125, 5)) == 0.00125
  {
    DecimalSpanAt("0.00125 - 0.010", 0, 8, 0, 1, 2, 7, 0, 125);
  }

  lemma {:induction false} High0p00125To0p010()
    ensures ParseSpan("0.00125 - 0.010", 9, 15) == Some(Decimal(0, 10, 3)) && DecimalValue(Decimal(0, 10, 3)) == 0.010
  {
    DecimalSpanAt("0.00125 - 0.010", 9, 15, 10, 11, 12, 15, 0, 10);
  }

  lemma {:induction false} Reads0p00125To0p010()
    ensures RangeOf("0.00125 - 0.010") == Some(NumericRange(0.00125, 0.010))
    ensures OneSeparator("0.00125 - 0.010")
  {
    Dashes0p00125To0p010();
    Low0p00125To0p010();
    High0p00125To0p010();
    RangeOfAt("0.00125 - 0.010", 15, 8, 9, Decimal(0, 125, 5), Decimal(0, 10, 3), 0.00125, 0.010);
  }

  // '0.000325 - 0.00125'
  lemma {:induction false} Dashes0p000325To0p00125()
    ensures FindIn("0.000325 - 0.00125", '-', 0, 18) == 9 && FindIn("0.000325 - 0.00125", '-', 10, 18) == 18
  {
  }

  lemma {:induction false} Low0p000325To0p00125()
    ensures ParseSpan("0.000325 - 0.00125", 0, 9) == Some(Decimal(0, 325, 6)) && DecimalValue(Decimal(0, 325, 6)) == 0.000325
  {
    DecimalSpanAt("0.000325 - 0.00125", 0, 9, 0, 1, 2, 8, 0, 325);
  }

  lemma {:induction false} High0p000325To0p00125()
    ensures ParseSpan("0.000325 - 0.00125", 10, 18) == Some(Decimal(0, 125, 5)) && DecimalValue(Decimal(0, 125, 5)) == 0.00125
  {
    DecimalSpanAt("0.000325 - 0.00125", 10, 18, 11, 12, 13, 18, 0, 125);
  }

  lemma {:induction false} Reads0p000325To0p00125()
    ensures RangeOf("0.000325 - 0.00125") == Some(NumericRange(0.000325, 0.00125))
    ensures OneSeparator("0.000325 - 0.00125")
  {
    Dashes0p000325To0p00125();
    Low0p000325To0p00125();
    High0p000325To0p00125();
    RangeOfAt("0.000325 - 0.00125", 18, 9, 10, Decimal(0, 325, 6), Decimal(0, 125, 5), 0.000325, 0.00125);
  }

  // '0.00032 - 0.00125'
  lemma {:induction false} Dashes0p00032To0p00125()
    ensures FindIn("0.00032 - 0.00125", '-', 0, 17) == 8 && FindIn("0.00032 - 0.00125", '-', 9, 17) == 17
  {
  }

  lemma {:induction false} Low0p00032To0p00125()
    ensures ParseSpan("0.00032 - 0.00125", 0, 8) == Some(Decimal(0, 32, 5)) && DecimalValue(Decimal(0, 32, 5)) == 0.00032
  {
    DecimalSpanAt("0.00032 - 0.00125", 0, 8, 0, 1, 2, 7, 0, 32);
  }

  lemma {:induction false} High0p00032To0p00125()
    ensures ParseSpan("0.00032 - 0.00125", 9, 17) == Some(Decimal(0, 125, 5)) && DecimalValue(Decimal(0, 125, 5)) == 0.00125
  {
    DecimalSpanAt("0.00032 - 0.00125", 9, 17, 10, 11, 12, 17, 0, 125);
  }

  lemma {:induction false} Reads0p00032To0p00125()
    ensures RangeOf("0.00032 - 0.00125") == Some(NumericRange(0.00032, 0.00125))
    ensures OneSeparator("0.00032 - 0.00125")
  {
    Dashes0p00032To0p00125();
    Low0p00032To0p00125();
    High0p00032To0p00125();
    RangeOfAt("0.00032 - 0.00125", 17, 8, 9, Decimal(0, 32, 5), Decimal(0, 125, 5), 0.00032, 0.00125);
  }

  // '0.005 - 0.08'
  lemma {:induction false} Dashes0p005To0p08()
    ensures FindIn("0.005 - 0.08", '-', 0, 12) == 6 && FindIn("0.005 - 0.08", '-', 7, 12) == 12
  {
  }

  lemma {:induction false} Low0p005To0p08()
    ensures ParseSpan("0.005 - 0.08", 0, 6) == Some(Decimal(0, 5, 3)) && DecimalValue(Decimal(0, 5, 3)) == 0.005
  {
    DecimalSpanAt("0.005 - 0.08", 0, 6, 0, 1, 2, 5, 0, 5);
  }

  lemma {:induction false} High0p005To0p08()
    ensures ParseSpan("0.005 - 0.08", 7, 12) == Some(Decimal(0, 8, 2)) && DecimalValue(Decimal(0, 8, 2)) == 0.08
  {
    DecimalSpanAt("0.005 - 0.08", 7, 12, 8, 9, 10, 12, 0, 8);
  }

  lemma {:induction false} Reads0p005To0p08()
    ensures RangeOf("0.005 - 0.08") == Some(NumericRange(0.005, 0.08))
    ensures OneSeparator("0.005 - 0.08")
  {
    Dashes0p005To0p08();
    Low0p005To0p08();
    High0p005To0p08();
    RangeOfAt("0.005 - 0.08", 12, 6, 7, Decimal(0, 5, 3), Decimal(0, 8, 2), 0.005, 0.08);
  }

  // '0.0008 - 0.0016'
  lemma {:induction false} Dashes0p0008To0p0016()
    ensures FindIn("0.0008 - 0.0016", '-', 0, 15) == 7 && FindIn("0.0008 - 0.0016", '-', 8, 15) == 15
  {
  }

  lemma {:induction false} Low0p0008To0p0016()
    ensures ParseSpan("0.0008 - 0.0016", 0, 7) == Some(Decimal(0, 8, 4)) && DecimalValue(Decimal(0, 8, 4)) == 0.0008
  {
    DecimalSpanAt("0.0008 - 0.0016", 0, 7, 0, 1, 2, 6, 0, 8);
  }

  lemma {:induction false} High0p0008To0p0016()
    ensures ParseSpan("0.0008 - 0.0016", 8, 15) == Some(Decimal(0, 16, 4)) && DecimalValue(Decimal(0, 16, 4)) == 0.0016
  {
    DecimalSpanAt("0.0008 - 0.0016", 8, 15, 9, 10, 11, 15, 0, 16);
  }

  lemma {:induction false} Reads0p0008To0p0016()
    ensures RangeOf("0.0008 - 0.0016") == Some(NumericRange(0.0008, 0.0016))
    ensures OneSeparator("0.0008 - 0.0016")
  {
    Dashes0p0008To0p0016();
    Low0p0008To0p0016();
    High0p0008To0p0016();
    RangeOfAt("0.0008 - 0.0016", 15, 7, 8, Decimal(0, 8, 4), Decimal(0, 16, 4), 0.0008, 0.0016);
  }

  // '0.005 - 0.02'
  lemma {:induction false} Dashes0p005To0p02()
    ensures FindIn("0.005 - 0.02", '-', 0, 12) == 6 && FindIn("0.005 - 0.02", '-', 7, 12) == 12
  {
  }

  lemma {:induction false} Low0p005To0p02()
    ensures ParseSpan("0.005 - 0.02", 0, 6) == Some(Decimal(0, 5, 3)) && DecimalValue(Decimal(0, 5, 3)) == 0.005
  {
    DecimalSpanAt("0.005 - 0.02", 0, 6, 0, 1, 2, 5, 0, 5);
  }

  lemma {:induction false} High0p005To0p02()
    ensures ParseSpan("0.005 - 0.02", 7, 12) == Some(Decimal(0, 2, 2)) && DecimalValue(Decimal(0, 2, 2)) == 0.02
  {
    DecimalSpanAt("0.005 - 0.02", 7, 12, 8, 9, 10, 12, 0, 2);
  }

  lemma {:induction false} Reads0p005To0p02()
    ensures RangeOf("0.005 - 0.02") == Some(NumericRange(0.005, 0.02))
    ensures OneSeparator("0.005 - 0.02")
  {
    Dashes0p005To0p02();
    Low0p005To0p02();
    High0p005To0p02();
    RangeOfAt("0.005 - 0.02", 12, 6, 7, Decimal(0, 5, 3), Decimal(0, 2, 2), 0.005, 0.02);
  }

  // '0.00062 - 0.0025'
  lemma {:induction false} Dashes0p00062To0p0025()
    ensures FindIn("0.00062 - 0.0025", '-', 0, 16) == 8 && FindIn("0.00062 - 0.0025", '-', 9, 16) == 16
  {
  }

  lemma {:induction false} Low0p00062To0p0025()
    ensures ParseSpan("0.00062 - 0.0025", 0, 8) == Some(Decimal(0, 62, 5)) && DecimalValue(Decimal(0, 62, 5)) == 0.00062
  {
    DecimalSpanAt("0.00062 - 0.0025", 0, 8, 0, 1, 2, 7, 0, 62);
  }

  lemma {:induction false} High0p00062To0p0025()
    ensures ParseSpan("0.00062 - 0.0025", 9, 16) == Some(Decimal(0, 25, 4)) && DecimalValue(Decimal(0, 25, 4)) == 0.0025
  {
    DecimalSpanAt("0.00062 - 0.0025", 9, 16, 10, 11, 12, 16, 0, 25);
  }

  lemma {:induction false} Reads0p00062To0p0025()
    ensures RangeOf("0.00062 - 0.0025") == Some(NumericRange(0.00062, 0.0025))
    ensures OneSeparator("0.00062 - 0.0025")
  {
    Dashes0p00062To0p0025();
    Low0p00062To0p0025();
    High0p00062To0p0025();
    RangeOfAt("0.00062 - 0.0025", 16, 8, 9, Decimal(0, 62, 5), Decimal(0, 25, 4), 0.00062, 0.0025);
  }

  // '0.00125 -  0.010'
  lemma {:induction false} Dashes0p00125To0p010Wide()
    ensures FindIn("0.00125 -  0.010", '-', 0, 16) == 8 && FindIn("0.00125 -  0.010", '-', 9, 16) == 16
  {
  }

  lemma {:induction false} Low0p00125To0p010Wide()
    ensures ParseSpan("0.00125 -  0.010", 0, 8) == Some(Decimal(0, 125, 5)) && DecimalValue(Decimal(0, 125, 5)) == 0.00125
  {
    DecimalSpanAt("0.00125 -  0.010", 0, 8, 0, 1, 2, 7, 0, 125);
  }

  lemma {:induction false} High0p00125To0p010Wide()
    ensures ParseSpan("0.00125 -  0.010", 9, 16) == Some(Decimal(0, 10, 3)) && DecimalValue(Decimal(0, 10, 3)) == 0.010
  {
    DecimalSpanAt("0.00125 -  0.010", 9, 16, 11, 12, 13, 16, 0, 10);
  }

  lemma {:induction false} Reads0p00125To0p010Wide()
    ensures RangeOf("0.00125 -  0.010") == Some(NumericRange(0.00125, 0.010))
    ensures OneSeparator("0.00125 -  0.010")
  {
    Dashes0p00125To0p010Wide();
    Low0p00125To0p010Wide();
    High0p00125To0p010Wide();
    RangeOfAt("0.00125 -  0.010", 16, 8, 9, Decimal(0, 125, 5), Decimal(0, 10, 3), 0.00125, 0.010);
  }

  // '0.06 - 0.33'
  lemma {:induction false} Dashes0p06To0p33()
    ensures FindIn("0.06 - 0.33", '-', 0, 11) == 5 && FindIn("0.06 - 0.33", '-', 6, 11) == 11
  {
  }

  lemma {:induction false} Low0p06To0p33()
    ensures ParseSpan("0.06 - 0.33", 0, 5) == Some(Decimal(0, 6, 2)) && DecimalValue(Decimal(0, 6, 2)) == 0.06
  {
    DecimalSpanAt("0.06 - 0.33", 0, 5, 0, 1, 2, 4, 0, 6);
  }

  lemma {:induction false} High0p06To0p33()
    ensures ParseSpan("0.06 - 0.33", 6, 11) == Some(Decimal(0, 33, 2)) && DecimalValue(Decimal(0, 33, 2)) == 0.33
  {
    DecimalSpanAt("0.06 - 0.33", 6, 11, 7, 8, 9, 11, 0, 33);
  }

  lemma {:induction false} Reads0p06To0p33()
    ensures RangeOf("0.06 - 0.33") == Some(NumericRange(0.06, 0.33))
    ensures OneSeparator("0.06 - 0.33")
  {
    Dashes0p06To0p33();
    Low0p06To0p33();
    High0p06To0p33();
    RangeOfAt("0.06 - 0.33", 11, 5, 6, Decimal(0, 6, 2), Decimal(0, 33, 2), 0.06, 0.33);
  }

}
