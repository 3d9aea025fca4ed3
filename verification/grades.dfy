/**
 * The two grade tables read as numbers, and what holds of them: they share
 * their tools and grades, every range string parses, and every range but
 * one runs from a smaller to a larger number.
 */
module Grades {
  import opened Wrappers
  import opened Ranges
  import opened Dicts
  import opened Registry
  import opened RangeTexts

  // ---------------------------------------------------------------------------
  // The tables as numbers
  // ---------------------------------------------------------------------------

  /** The numbers written in `tolerance_to_numeric_range`, in table order. */
  const ToleranceBounds: Dict<Dict<NumericRange>> := [
    ("Boss", [("IT11 - IT13", NumericRange(0.6, 0.33)), ("IT8 - IT11", NumericRange(0.014, 0.06)),
              ("IT3 - IT8", NumericRange(0.0020, 0.014))]),
    ("Chamfer", [("IT11 - IT13", NumericRange(0.09, 0.22)), ("IT8 - IT11", NumericRange(0.022, 0.09)),
                 ("IT3 - IT8", NumericRange(0.0025, 0.022))]),
    ("Fillet", [("IT11 - IT13", NumericRange(0.06, 0.18)), ("IT8 - IT11", NumericRange(0.014, 0.06)),
                ("IT3 - IT8", NumericRange(0.0020, 0.014))]),
    ("Hole", [("IT11 - IT13", NumericRange(0.06, 0.27)), ("IT7", NumericRange(0.01, 0.018)),
              ("IT12 - IT13", NumericRange(0.10, 0.27)), ("IT7 - IT9", NumericRange(0.01, 0.043))]),
    ("Pocket", [("IT11 - IT13", NumericRange(0.075, 0.46)), ("IT8 - IT11", NumericRange(0.018, 0.075)),
                ("IT3 - IT8", NumericRange(0.0025, 0.018))]),
    ("Step", [("IT11 - IT13", NumericRange(0.09, 0.54)), ("IT8 - IT11", NumericRange(0.022, 0.09)),
              ("IT3 - IT8", NumericRange(0.0025, 0.022))])
  ]

  /** The numbers written in `tolerance_to_surface_finish`, in table order. */
  const FinishBounds: Dict<Dict<NumericRange>> := [
    ("Boss", [("IT11 - IT13", NumericRange(0.01, 0.020)), ("IT8 - IT11", NumericRange(0.00125, 0.010)),
              ("IT3 - IT8", NumericRange(0.000325, 0.00125))]),
    ("Chamfer", [("IT11 - IT13", NumericRange(0.01, 0.020)), ("IT8 - IT11", NumericRange(0.00125, 0.010)),
                 ("IT3 - IT8", NumericRange(0.00032, 0.00125))]),
    ("Fillet", [("IT11 - IT13", NumericRange(0.01, 0.020)), ("IT8 - IT11", NumericRange(0.00125, 0.010)),
                ("IT3 - IT8", NumericRange(0.00032, 0.00125))]),
    ("Hole", [("IT11 - IT13", NumericRange(0.005, 0.08)), ("IT7", NumericRange(0.0008, 0.0016)),
              ("IT12 - IT13", NumericRange(0.005, 0.02)), ("IT7 - IT9", NumericRange(0.00062, 0.0025))]),
    ("Pocket", [("IT11 - IT13", NumericRange(0.01, 0.020)), ("IT8 - IT11", NumericRange(0.00125, 0.010)),
                ("IT3 - IT8", NumericRange(0.000325, 0.00125))]),
    ("Step", [("IT11 - IT13", NumericRange(0.01, 0.020)), ("IT8 - IT11", NumericRange(0.00125, 0.010)),
              ("IT3 - IT8", NumericRange(0.00032, 0.00125))])
  ]

  // ---------------------------------------------------------------------------
  // Lookups
  // ---------------------------------------------------------------------------

  /** `table[tool][grade]`, None when either key is missing. */
  function Lookup<V>(table: Dict<Dict<V>>, tool: string, grade: string): (r: Option<V>)
    ensures r.Some? <==> Get(table, tool).Some? && Get(Get(table, tool).value, grade).Some?
    ensures r.Some? ==> Get(Get(table, tool).value, grade) == r
  {
    match Get(table, tool)
    case None => None
    case Some(row) => Get(row, grade)
  }

  /** Two tables with the same tools, in the same order, each with the same grades in the same order. */
  predicate SameShape<V, W>(a: Dict<Dict<V>>, b: Dict<Dict<W>>) {
    Keys(a) == Keys(b) && forall i :: 0 <= i < |a| ==> Keys(a[i].1) == Keys(b[i].1)
  }

  /**
   * Every range string of one tool's row holds exactly one '-' (so
   * `split('-')` gives exactly two pieces, by OneSeparatorTwoPieces) and
   * reads as the numbers at the same place in `values`.
   */
  predicate RowDecodes(texts: Dict<string>, values: Dict<NumericRange>) {
    && Keys(texts) == Keys(values)
    && forall j :: 0 <= j < |texts| ==> RangeOf(texts[j].1) == Some(values[j].1) && OneSeparator(texts[j].1)
  }

  /** Every range string of `texts` reads as the numbers at the same place in `values`. */
  predicate Decodes(texts: Dict<Dict<string>>, values: Dict<Dict<NumericRange>>) {
    Keys(texts) == Keys(values) && forall i :: 0 <= i < |texts| ==> RowDecodes(texts[i].1, values[i].1)
  }

  /** Tables of the same shape hold the same (tool, grade) pairs. */
  lemma {:induction false} LookupSameShape<V, W>(a: Dict<Dict<V>>, b: Dict<Dict<W>>, tool: string, grade: string)
    requires SameShape(a, b)
    ensures Lookup(a, tool, grade).Some? <==> Lookup(b, tool, grade).Some?
    ensures Lookup(a, tool, grade).Some? ==>
              exists i, j :: 0 <= i < |a| && 0 <= j < |a[i].1| && |b[i].1| == |a[i].1| && a[i].0 == tool
                && a[i].1[j] == (grade, Lookup(a, tool, grade).value)
                && b[i].1[j] == (grade, Lookup(b, tool, grade).value)
  {
    GetSameKeys(a, b, tool);
    if Get(a, tool).Some? {
      var i :| 0 <= i < |a| && a[i] == (tool, Get(a, tool).value) && b[i] == (tool, Get(b, tool).value);
      GetSameKeys(a[i].1, b[i].1, grade);
      assert |b[i].1| == |Keys(b[i].1)| == |Keys(a[i].1)| == |a[i].1|;
      if Get(a[i].1, grade).Some? {
        var j :| 0 <= j < |a[i].1| && a[i].1[j] == (grade, Get(a[i].1, grade).value)
                                   && b[i].1[j] == (grade, Get(b[i].1, grade).value);
      }
    }
  }

  /** Looking a range string up and reading it gives the numbers looked up in the decoded table. */
  lemma {:induction false} LookupDecodes(texts: Dict<Dict<string>>, values: Dict<Dict<NumericRange>>, tool: string, grade: string)
    requires Decodes(texts, values)
    ensures Lookup(texts, tool, grade).Some? <==> Lookup(values, tool, grade).Some?
    ensures Lookup(texts, tool, grade).Some? ==> RangeOf(Lookup(texts, tool, grade).value) == Lookup(values, tool, grade)
    ensures Lookup(texts, tool, grade).Some? ==> OneSeparator(Lookup(texts, tool, grade).value)
  {
    LookupSameShape(texts, values, tool, grade);
    if Lookup(texts, tool, grade).Some? {
      var i, j :| 0 <= i < |texts| && 0 <= j < |texts[i].1| && |values[i].1| == |texts[i].1|
                  && texts[i].1[j] == (grade, Lookup(texts, tool, grade).value)
                  && values[i].1[j] == (grade, Lookup(values, tool, grade).value);
      assert RowDecodes(texts[i].1, values[i].1);
    }
  }

  // ---------------------------------------------------------------------------
  // The shipped tables
  // ---------------------------------------------------------------------------

  /**
   * `tools_info` and both grade tables list the same six tools in the same
   * order, and the two grade tables list the same grades for each tool in
   * the same order.
   */
  lemma {:induction false} TablesAgree()
    ensures Keys(ToolsInfo) == Keys(ToleranceToNumericRange) == Keys(ToleranceToSurfaceFinish)
    ensures Keys(ToolsInfo) == ["Boss", "Chamfer", "Fillet", "Hole", "Pocket", "Step"]
    ensures SameShape(ToleranceToNumericRange, ToleranceToSurfaceFinish)
  {
  }

  /** Every grade offered for a tool by the tolerance table has a surface-finish range. */
  lemma {:induction false} FinishLookupNeverMisses(tool: string, grade: string)
    requires Lookup(ToleranceToNumericRange, tool, grade).Some?
    ensures Lookup(ToleranceToSurfaceFinish, tool, grade).Some?
  {
    TablesAgree();
    LookupSameShape(ToleranceToNumericRange, ToleranceToSurfaceFinish, tool, grade);
  }

  /** Every tolerance range string parses, to the numbers written in it. */
  lemma {:induction false} ToleranceTableParses()
    ensures Decodes(ToleranceToNumericRange, ToleranceBounds)
  {
    forall i | 0 <= i < 6 ensures RowDecodes(ToleranceToNumericRange[i].1, ToleranceBounds[i].1) {
      if i == 0 { BossToleranceRow(); }
      else if i == 1 { ChamferToleranceRow(); }
      else if i == 2 { FilletToleranceRow(); }
      else if i == 3 { HoleToleranceRow(); }
      else if i == 4 { PocketToleranceRow(); }
      else { StepToleranceRow(); }
    }
  }

  /** Every surface-finish range string parses, to the numbers written in it. */
  lemma {:induction false} FinishTableParses()
    ensures Decodes(ToleranceToSurfaceFinish, FinishBounds)
  {
    forall i | 0 <= i < 6 ensures RowDecodes(ToleranceToSurfaceFinish[i].1, FinishBounds[i].1) {
      if i == 0 { BossFinishRow(); }
      else if i == 1 { ChamferFinishRow(); }
      else if i == 2 { FilletFinishRow(); }
      else if i == 3 { HoleFinishRow(); }
      else if i == 4 { PocketFinishRow(); }
      else { StepFinishRow(); }
    }
  }

  // One lemma per row: each reads the range strings of one tool.

  lemma {:induction false} BossToleranceRow()
    ensures RowDecodes(ToleranceToNumericRange[0].1, ToleranceBounds[0].1)
  {
    forall j | 0 <= j < 3 ensures RangeOf(ToleranceToNumericRange[0].1[j].1) == Some(ToleranceBounds[0].1[j].1) && OneSeparator(ToleranceToNumericRange[0].1[j].1) {
      if j == 0 { Reads0p6To0p33(); }
      else if j == 1 { Reads0p014To0p06Wide(); }
      else { Reads0p0020To0p014(); }
    }
  }

  lemma {:induction false} ChamferToleranceRow()
    ensures RowDecodes(ToleranceToNumericRange[1].1, ToleranceBounds[1].1)
  {
    forall j | 0 <= j < 3 ensures RangeOf(ToleranceToNumericRange[1].1[j].1) == Some(ToleranceBounds[1].1[j].1) && OneSeparator(ToleranceToNumericRange[1].1[j].1) {
      if j == 0 { Reads0p09To0p22(); }
      else if j == 1 { Reads0p022To0p09Wide(); }
      else { Reads0p0025To0p022(); }
    }
  }

  lemma {:induction false} FilletToleranceRow()
    ensures RowDecodes(ToleranceToNumericRange[2].1, ToleranceBounds[2].1)
  {
    forall j | 0 <= j < 3 ensures RangeOf(ToleranceToNumericRange[2].1[j].1) == Some(ToleranceBounds[2].1[j].1) && OneSeparator(ToleranceToNumericRange[2].1[j].1) {
      if j == 0 { Reads0p06To0p18(); }
      else if j == 1 { Reads0p014To0p06Wide(); }
      else { Reads0p0020To0p014(); }
    }
  }

  lemma {:induction false} HoleToleranceRow()
    ensures RowDecodes(ToleranceToNumericRange[3].1, ToleranceBounds[3].1)
  {
    forall j | 0 <= j < 4 ensures RangeOf(ToleranceToNumericRange[3].1[j].1) == Some(ToleranceBounds[3].1[j].1) && OneSeparator(ToleranceToNumericRange[3].1[j].1) {
      if j == 0 { Reads0p06To0p27(); }
      else if j == 1 { Reads0p01To0p018Wide(); }
      else if j == 2 { Reads0p10To0p27(); }
      else { Reads0p01To0p043(); }
    }
  }

  lemma {:induction false} PocketToleranceRow()
    ensures RowDecodes(ToleranceToNumericRange[4].1, ToleranceBounds[4].1)
  {
    forall j | 0 <= j < 3 ensures RangeOf(ToleranceToNumericRange[4].1[j].1) == Some(ToleranceBounds[4].1[j].1) && OneSeparator(ToleranceToNumericRange[4].1[j].1) {
      if j == 0 { Reads0p075To0p46(); }
      else if j == 1 { Reads0p018To0p075Wide(); }
      else { Reads0p0025To0p018(); }
    }
  }

  lemma {:induction false} StepToleranceRow()
    ensures RowDecodes(ToleranceToNumericRange[5].1, ToleranceBounds[5].1)
  {
    forall j | 0 <= j < 3 ensures RangeOf(ToleranceToNumericRange[5].1[j].1) == Some(ToleranceBounds[5].1[j].1) && OneSeparator(ToleranceToNumericRange[5].1[j].1) {
      if j == 0 { Reads0p09To0p54(); }
      else if j == 1 { Reads0p022To0p09Wide(); }
      else { Reads0p0025To0p022(); }
    }
  }

  lemma {:induction false} BossFinishRow()
    ensures RowDecodes(ToleranceToSurfaceFinish[0].1, FinishBounds[0].1)
  {
    forall j | 0 <= j < 3 ensures RangeOf(ToleranceToSurfaceFinish[0].1[j].1) == Some(FinishBounds[0].1[j].1) && OneSeparator(ToleranceToSurfaceFinish[0].1[j].1) {
      if j == 0 { Reads0p01To0p020(); }
      else if j == 1 { Reads0p00125To0p010(); }
      else { Reads0p000325To0p00125(); }
    }
  }

  lemma {:induction false} ChamferFinishRow()
    ensures RowDecodes(ToleranceToSurfaceFinish[1].1, FinishBounds[1].1)
  {
    forall j | 0 <= j < 3 ensures RangeOf(ToleranceToSurfaceFinish[1].1[j].1) == Some(FinishBounds[1].1[j].1) && OneSeparator(ToleranceToSurfaceFinish[1].1[j].1) {
      if j == 0 { Reads0p01To0p020(); }
      else if j == 1 { Reads0p00125To0p010(); }
      else { Reads0p00032To0p00125(); }
    }
  }

  lemma {:induction false} FilletFinishRow()
    ensures RowDecodes(ToleranceToSurfaceFinish[2].1, FinishBounds[2].1)
  {
    forall j | 0 <= j < 3 ensures RangeOf(ToleranceToSurfaceFinish[2].1[j].1) == Some(FinishBounds[2].1[j].1) && OneSeparator(ToleranceToSurfaceFinish[2].1[j].1) {
      if j == 0 { Reads0p01To0p020(); }
      else if j == 1 { Reads0p00125To0p010(); }
      else { Reads0p00032To0p00125(); }
    }
  }

  lemma {:induction false} HoleFinishRow()
    ensures RowDecodes(ToleranceToSurfaceFinish[3].1, FinishBounds[3].1)
  {
    forall j | 0 <= j < 4 ensures RangeOf(ToleranceToSurfaceFinish[3].1[j].1) == Some(FinishBounds[3].1[j].1) && OneSeparator(ToleranceToSurfaceFinish[3].1[j].1) {
      if j == 0 { Reads0p005To0p08(); }
      else if j == 1 { Reads0p0008To0p0016(); }
      else if j == 2 { Reads0p005To0p02(); }
      else { Reads0p00062To0p0025(); }
    }
  }

  lemma {:induction false} PocketFinishRow()
    ensures RowDecodes(ToleranceToSurfaceFinish[4].1, FinishBounds[4].1)
  {
    forall j | 0 <= j < 3 ensures RangeOf(ToleranceToSurfaceFinish[4].1[j].1) == Some(FinishBounds[4].1[j].1) && OneSeparator(ToleranceToSurfaceFinish[4].1[j].1) {
      if j == 0 { Reads0p01To0p020(); }
      else if j == 1 { Reads0p00125To0p010Wide(); }
      else { Reads0p000325To0p00125(); }
    }
  }

  lemma {:induction false} StepFinishRow()
    ensures RowDecodes(ToleranceToSurfaceFinish[5].1, FinishBounds[5].1)
  {
    forall j | 0 <= j < 3 ensures RangeOf(ToleranceToSurfaceFinish[5].1[j].1) == Some(FinishBounds[5].1[j].1) && OneSeparator(ToleranceToSurfaceFinish[5].1[j].1) {
      if j == 0 { Reads0p01To0p020(); }
      else if j == 1 { Reads0p00125To0p010Wide(); }
      else { Reads0p00032To0p00125(); }
    }
  }

  /** A range whose low end is not above its high end. */
  predicate Ordered(rg: NumericRange) {
    rg.low <= rg.high
  }

  /** Every surface-finish range runs upward. */
  lemma {:induction false} FinishRangesOrdered()
    ensures forall i, j :: 0 <= i < |FinishBounds| && 0 <= j < |FinishBounds[i].1| ==> Ordered(FinishBounds[i].1[j].1)
  {
  }

  /** Every tolerance range runs upward except Boss 'IT11 - IT13', which runs from 0.6 down to 0.33. */
  lemma {:induction false} OneInvertedToleranceRange()
    ensures forall i, j :: 0 <= i < |ToleranceBounds| && 0 <= j < |ToleranceBounds[i].1| ==>
              (Ordered(ToleranceBounds[i].1[j].1) <==> (ToleranceBounds[i].0, ToleranceBounds[i].1[j].0) != ("Boss", "IT11 - IT13"))
  {
  }

  /** The upper end of each grade's range is the lower end of the next coarser grade's. */
  predicate GradesMeet(row: Dict<NumericRange>)
    requires |row| == 3
  {
    row[1].1.high == row[0].1.low && row[2].1.high == row[1].1.low
  }

  /**
   * In the five tools with the grades 'IT11 - IT13', 'IT8 - IT11' and
   * 'IT3 - IT8', adjacent grades share their boundary value everywhere but
   * in Boss, whose coarse grade starts at 0.6 where its middle grade ends at
   * 0.06: the coarse range was meant to start at 0.06.
   */
  lemma {:induction false} GradesMeetExceptBoss()
    ensures forall i :: 0 <= i < |ToleranceBounds| && i != 3 ==>
              |ToleranceBounds[i].1| == 3 && (GradesMeet(ToleranceBounds[i].1) <==> ToleranceBounds[i].0 != "Boss")
  {
  }

  // ---------------------------------------------------------------------------
  // The tolerance table with the Boss coarse grade corrected
  // ---------------------------------------------------------------------------

  /** `tolerance_to_numeric_range` with Boss 'IT11 - IT13' reading '0.06 - 0.33'. */
  const CorrectedToleranceToNumericRange: Dict<Dict<string>> :=
    ToleranceToNumericRange[0 := ("Boss", [("IT11 - IT13", "0.06 - 0.33"), ("IT8 - IT11", "0.014 -  0.06"),
                                          ("IT3 - IT8", "0.0020 - 0.014")])]

  /** The numbers written in the corrected table. */
  const CorrectedToleranceBounds: Dict<Dict<NumericRange>> :=
    ToleranceBounds[0 := ("Boss", [("IT11 - IT13", NumericRange(0.06, 0.33)), ("IT8 - IT11", NumericRange(0.014, 0.06)),
                                  ("IT3 - IT8", NumericRange(0.0020, 0.014))])]

  /** The correction keeps the tools and grades, so the surface-finish lookup still never misses. */
  lemma {:induction false} CorrectedTableAgrees()
    ensures Keys(CorrectedToleranceToNumericRange) == Keys(ToolsInfo)
    ensures SameShape(CorrectedToleranceToNumericRange, ToleranceToSurfaceFinish)
  {
  }

  /** Every range string of the corrected table parses, to the numbers written in it. */
  lemma {:induction false} CorrectedTableParses()
    ensures Decodes(CorrectedToleranceToNumericRange, CorrectedToleranceBounds)
  {
    forall i | 0 <= i < 6 ensures RowDecodes(CorrectedToleranceToNumericRange[i].1, CorrectedToleranceBounds[i].1) {
      if i == 0 {
        forall j | 0 <= j < 3
          ensures RangeOf(CorrectedToleranceToNumericRange[0].1[j].1) == Some(CorrectedToleranceBounds[0].1[j].1)
               && OneSeparator(CorrectedToleranceToNumericRange[0].1[j].1)
        {
          if j == 0 { Reads0p06To0p33(); }
          else if j == 1 { Reads0p014To0p06Wide(); }
          else { Reads0p0020To0p014(); }
        }
      }
      else if i == 1 { ChamferToleranceRow(); }
      else if i == 2 { FilletToleranceRow(); }
      else if i == 3 { HoleToleranceRow(); }
      else if i == 4 { PocketToleranceRow(); }
      else { StepToleranceRow(); }
    }
  }

  /** In the corrected table every range runs upward and adjacent grades meet in every three-grade tool. */
  lemma {:induction false} CorrectedRangesOrdered()
    ensures forall i, j :: 0 <= i < |CorrectedToleranceBounds| && 0 <= j < |CorrectedToleranceBounds[i].1| ==>
              Ordered(CorrectedToleranceBounds[i].1[j].1)
    ensures forall i :: 0 <= i < |CorrectedToleranceBounds| && i != 3 ==>
              |CorrectedToleranceBounds[i].1| == 3 && GradesMeet(CorrectedToleranceBounds[i].1)
  {
  }
}
