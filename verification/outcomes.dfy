/**
 * What `collect_input_data` does with the tables the app ships, and with
 * the Boss coarse tolerance range corrected: which tolerances and surface
 * finishes each grade accepts, and what a returned record holds.
 */
module Outcomes {
  import opened Wrappers
  import opened Dicts
  import opened Ranges
  import opened Registry
  import opened Grades
  import opened Collect

  /** Every tool of both grade tables offers at least one grade. */
  lemma {:induction false} EveryToolHasGrades()
    ensures forall i :: 0 <= i < |ToleranceToNumericRange| ==> |ToleranceToNumericRange[i].1| >= 3
    ensures forall i :: 0 <= i < |CorrectedToleranceToNumericRange| ==> |CorrectedToleranceToNumericRange[i].1| >= 3
  {
  }

  /** For every tool of `tools_info`, choosing a grade raises nothing, in either version of the tables. */
  lemma {:induction false} ShippedGradeChoice(tool: string, form: Form)
    requires tool in Keys(ToolsInfo)
    ensures GradeChoice(AsWritten, tool, form.grade).Success?
    ensures GradeChoice(Corrected, tool, form.grade) == GradeChoice(AsWritten, tool, form.grade)
  {
    TablesAgree();
    CorrectedTableAgrees();
    EveryToolHasGrades();
    assert Get(ToleranceToNumericRange, tool).Some?;
    var m :| 0 <= m < |ToleranceToNumericRange| && ToleranceToNumericRange[m] == (tool, Get(ToleranceToNumericRange, tool).value);
    var row := Get(ToleranceToNumericRange, tool).value;
    assert |Keys(row)| == |row| >= 3;
    GetSameKeys(ToleranceToNumericRange, CorrectedToleranceToNumericRange, tool);
    var m' :| 0 <= m' < |ToleranceToNumericRange| && ToleranceToNumericRange[m'] == (tool, row)
               && CorrectedToleranceToNumericRange[m'] == (tool, Get(CorrectedToleranceToNumericRange, tool).value);
    assert Keys(Get(CorrectedToleranceToNumericRange, tool).value) == Keys(row);
  }

  /**
   * For every tool of `tools_info`, the shipped app raises nothing and
   * returns a record exactly when the numbers written for the chosen grade
   * accept the tolerance and the surface finish, ends included.
   */
  lemma {:induction false} AsWrittenOutcome(tool: string, features: seq<string>, form: Form)
    requires tool in Keys(ToolsInfo)
    ensures var r := CollectInputData(AsWritten, tool, features, form);
            && r.Success?
            && (r.value.Some? <==> Accepts(ToleranceBounds, FinishBounds, tool, GradeChoice(AsWritten, tool, form.grade).value,
                                           form.tolerance, form.surfaceFinish))
  {
    ShippedGradeChoice(tool, form);
    TablesAgree();
    ToleranceTableParses();
    FinishTableParses();
    CollectMatchesNumbers(AsWritten, ToleranceBounds, FinishBounds, tool, features, form);
  }

  /** The same with the Boss coarse tolerance range corrected. */
  lemma {:induction false} CorrectedOutcome(tool: string, features: seq<string>, form: Form)
    requires tool in Keys(ToolsInfo)
    ensures var r := CollectInputData(Corrected, tool, features, form);
            && r.Success?
            && (r.value.Some? <==> Accepts(CorrectedToleranceBounds, FinishBounds, tool, GradeChoice(Corrected, tool, form.grade).value,
                                           form.tolerance, form.surfaceFinish))
  {
    ShippedGradeChoice(tool, form);
    CorrectedTableAgrees();
    CorrectedTableParses();
    FinishTableParses();
    CollectMatchesNumbers(Corrected, CorrectedToleranceBounds, FinishBounds, tool, features, form);
  }

  /**
   * Every grade but Boss 'IT11 - IT13' accepts the lower ends of its two
   * ranges together, and their upper ends together.
   */
  lemma {:induction false} EndsAccepted(tool: string, grade: string)
    requires Lookup(ToleranceBounds, tool, grade).Some? && (tool, grade) != ("Boss", "IT11 - IT13")
    ensures Lookup(FinishBounds, tool, grade).Some?
    ensures var t, f := Lookup(ToleranceBounds, tool, grade).value, Lookup(FinishBounds, tool, grade).value;
            && Accepts(ToleranceBounds, FinishBounds, tool, grade, t.low, f.low)
            && Accepts(ToleranceBounds, FinishBounds, tool, grade, t.high, f.high)
  {
    assert SameShape(ToleranceBounds, FinishBounds);
    LookupSameShape(ToleranceBounds, FinishBounds, tool, grade);
    var i, j :| 0 <= i < |ToleranceBounds| && 0 <= j < |ToleranceBounds[i].1| && |FinishBounds[i].1| == |ToleranceBounds[i].1|
                && ToleranceBounds[i].0 == tool
                && ToleranceBounds[i].1[j] == (grade, Lookup(ToleranceBounds, tool, grade).value)
                && FinishBounds[i].1[j] == (grade, Lookup(FinishBounds, tool, grade).value);
    OneInvertedToleranceRange();
    FinishRangesOrdered();
    assert Ordered(ToleranceBounds[i].1[j].1) && Ordered(FinishBounds[i].1[j].1);
  }

  /** With the Boss coarse range corrected, every grade accepts the ends of its ranges. */
  lemma {:induction false} CorrectedEndsAccepted(tool: string, grade: string)
    requires Lookup(CorrectedToleranceBounds, tool, grade).Some?
    ensures Lookup(FinishBounds, tool, grade).Some?
    ensures var t, f := Lookup(CorrectedToleranceBounds, tool, grade).value, Lookup(FinishBounds, tool, grade).value;
            && Accepts(CorrectedToleranceBounds, FinishBounds, tool, grade, t.low, f.low)
            && Accepts(CorrectedToleranceBounds, FinishBounds, tool, grade, t.high, f.high)
  {
    assert SameShape(CorrectedToleranceBounds, FinishBounds);
    LookupSameShape(CorrectedToleranceBounds, FinishBounds, tool, grade);
    var i, j :| 0 <= i < |CorrectedToleranceBounds| && 0 <= j < |CorrectedToleranceBounds[i].1|
                && |FinishBounds[i].1| == |CorrectedToleranceBounds[i].1|
                && CorrectedToleranceBounds[i].1[j] == (grade, Lookup(CorrectedToleranceBounds, tool, grade).value)
                && FinishBounds[i].1[j] == (grade, Lookup(FinishBounds, tool, grade).value);
    CorrectedRangesOrdered();
    FinishRangesOrdered();
    assert Ordered(CorrectedToleranceBounds[i].1[j].1) && Ordered(FinishBounds[i].1[j].1);
  }

  /** The grade selectbox starts at its first grade, which for Boss is 'IT11 - IT13'. */
  lemma {:induction false} BossDefaultGrade(form: Form)
    requires form.grade == 0
    ensures GradeChoice(AsWritten, "Boss", form.grade) == Success("IT11 - IT13")
  {
  }

  /**
   * With the Boss grade 'IT11 - IT13' ('0.6 - 0.33') no tolerance passes:
   * the form always yields None.
   */
  lemma {:induction false} BossCoarseGradeAlwaysRejected(features: seq<string>, form: Form)
    requires GradeChoice(AsWritten, "Boss", form.grade) == Success("IT11 - IT13")
    ensures CollectInputData(AsWritten, "Boss", features, form) == Success(None)
  {
    TablesAgree();
    AsWrittenOutcome("Boss", features, form);
    assert Lookup(ToleranceBounds, "Boss", "IT11 - IT13") == Some(NumericRange(0.6, 0.33));
  }

  /**
   * With the range corrected to '0.06 - 0.33', the Boss grade 'IT11 - IT13'
   * accepts exactly the tolerances from 0.06 to 0.33 together with the
   * surface finishes from 0.01 to 0.020.
   */
  lemma {:induction false} CorrectedBossCoarseGrade(features: seq<string>, form: Form)
    requires GradeChoice(Corrected, "Boss", form.grade) == Success("IT11 - IT13")
    ensures var r := CollectInputData(Corrected, "Boss", features, form);
            && r.Success?
            && (r.value.Some? <==> 0.06 <= form.tolerance <= 0.33 && 0.01 <= form.surfaceFinish <= 0.020)
  {
    TablesAgree();
    CorrectedOutcome("Boss", features, form);
    assert Lookup(CorrectedToleranceBounds, "Boss", "IT11 - IT13") == Some(NumericRange(0.06, 0.33));
    assert Lookup(FinishBounds, "Boss", "IT11 - IT13") == Some(NumericRange(0.01, 0.020));
  }

  /** Hole 'IT7' accepts the tolerances from 0.01 to 0.018 with the surface finishes from 0.0008 to 0.0016. */
  lemma {:induction false} HoleIT7Window(features: seq<string>, form: Form)
    requires GradeChoice(AsWritten, "Hole", form.grade) == Success("IT7")
    ensures var r := CollectInputData(AsWritten, "Hole", features, form);
            && r.Success?
            && (r.value.Some? <==> 0.01 <= form.tolerance <= 0.018 && 0.0008 <= form.surfaceFinish <= 0.0016)
  {
    TablesAgree();
    AsWrittenOutcome("Hole", features, form);
    HoleIT7Numbers();
  }

  lemma {:induction false} HoleIT7Numbers()
    ensures Lookup(ToleranceBounds, "Hole", "IT7") == Some(NumericRange(0.01, 0.018))
    ensures Lookup(FinishBounds, "Hole", "IT7") == Some(NumericRange(0.0008, 0.0016))
  {
  }

  /** With a valid surface finish, Hole 'IT7' accepts the tolerances 0.01, 0.015 and 0.018 and rejects 0.02. */
  lemma {:induction false} HoleIT7Examples(features: seq<string>, form: Form)
    requires GradeChoice(AsWritten, "Hole", form.grade) == Success("IT7") && form.surfaceFinish == 0.001
    ensures CollectInputData(AsWritten, "Hole", features, form.(tolerance := 0.01)).Success? && CollectInputData(AsWritten, "Hole", features, form.(tolerance := 0.01)).value.Some?
    ensures CollectInputData(AsWritten, "Hole", features, form.(tolerance := 0.015)).Success? && CollectInputData(AsWritten, "Hole", features, form.(tolerance := 0.015)).value.Some?
    ensures CollectInputData(AsWritten, "Hole", features, form.(tolerance := 0.018)).Success? && CollectInputData(AsWritten, "Hole", features, form.(tolerance := 0.018)).value.Some?
    ensures CollectInputData(AsWritten, "Hole", features, form.(tolerance := 0.02)) == Success(None)
  {
    HoleIT7Window(features, form.(tolerance := 0.01));
    HoleIT7Window(features, form.(tolerance := 0.015));
    HoleIT7Window(features, form.(tolerance := 0.018));
    HoleIT7Window(features, form.(tolerance := 0.02));
  }

  /**
   * Once a tolerance passes Boss 'IT8 - IT11', the surface finish is
   * checked against the same grade's range: 0.00125 to 0.010.
   */
  lemma {:induction false} BossMiddleGradeFinish(features: seq<string>, form: Form)
    requires GradeChoice(AsWritten, "Boss", form.grade) == Success("IT8 - IT11")
    requires 0.014 <= form.tolerance <= 0.06
    ensures var r := CollectInputData(AsWritten, "Boss", features, form);
            && r.Success?
            && (r.value.Some? <==> 0.00125 <= form.surfaceFinish <= 0.010)
  {
    TablesAgree();
    AsWrittenOutcome("Boss", features, form);
    assert Lookup(ToleranceBounds, "Boss", "IT8 - IT11") == Some(NumericRange(0.014, 0.06));
    assert Lookup(FinishBounds, "Boss", "IT8 - IT11") == Some(NumericRange(0.00125, 0.010));
  }

  /** Boss 'IT8 - IT11' accepts the lower end 0.00125 of its surface-finish range and rejects 0.00124. */
  lemma {:induction false} BossMiddleGradeFinishEdge(features: seq<string>, form: Form)
    requires GradeChoice(AsWritten, "Boss", form.grade) == Success("IT8 - IT11")
    requires 0.014 <= form.tolerance <= 0.06
    ensures CollectInputData(AsWritten, "Boss", features, form.(surfaceFinish := 0.00125)).Success? && CollectInputData(AsWritten, "Boss", features, form.(surfaceFinish := 0.00125)).value.Some?
    ensures CollectInputData(AsWritten, "Boss", features, form.(surfaceFinish := 0.00124)) == Success(None)
  {
    BossMiddleGradeFinish(features, form.(surfaceFinish := 0.00125));
    BossMiddleGradeFinish(features, form.(surfaceFinish := 0.00124));
  }

  /** A tool that is not in the tables, such as 'Slot', raises KeyError('Slot'). */
  lemma {:induction false} UnknownToolSlot(features: seq<string>, form: Form)
    ensures CollectInputData(AsWritten, "Slot", features, form) == Failure(KeyError("Slot"))
  {
    UnknownToolRaises(AsWritten, "Slot", features, form);
  }

  /** Every tool of `tools_info` lists its features without repeats and ends with Tolerance and Surface finish. */
  lemma {:induction false} FeatureListsEndWithChecks()
    ensures forall i :: 0 <= i < |ToolsInfo| ==>
              var fs := ToolsInfo[i].1.inputFeatures;
              && NoRepeats(fs) && |fs| >= 2 && fs[|fs| - 2] == Tolerance && fs[|fs| - 1] == SurfaceFinish
  {
  }

  /**
   * A record returned for a tool of `tools_info` has exactly the tool's
   * declared features as keys, in the declared order.
   */
  lemma {:induction false} ShippedRecordKeys(tables: GradeTables, i: nat, form: Form)
    requires i < |ToolsInfo|
    requires var r := CollectInputData(tables, ToolsInfo[i].0, ToolsInfo[i].1.inputFeatures, form);
             r.Success? && r.value.Some?
    ensures Keys(CollectInputData(tables, ToolsInfo[i].0, ToolsInfo[i].1.inputFeatures, form).value.value)
         == ToolsInfo[i].1.inputFeatures
  {
    FeatureListsEndWithChecks();
    RecordKeysAreFeatures(tables, ToolsInfo[i].0, ToolsInfo[i].1.inputFeatures, form);
  }
}
