/**
 * The decision part of `collect_input_data` (app.py:169-250): the feature
 * record built from the widgets, the choice of a tolerance grade, and the
 * two-stage check of the tolerance and then the surface finish against the
 * range strings of that grade.
 *
 * Widgets are inputs here. A `Form` holds what the user entered; each
 * widget turns its part of the form into the value Streamlit would return.
 */
module Collect {
  import opened Wrappers
  import opened Dicts
  import opened Ranges
  import opened Registry
  import opened Features
  import opened Grades

  /** A value of the feature record: a selectbox or text_input string, a whole number_input value, or a float. */
  datatype Value = Text(text: string) | Whole(whole: int) | Number(number: real)

  /**
   * What the user entered for one tool: whole numbers and texts by feature
   * (a missing entry is a widget left at its default), the position of the
   * chosen grade in the grade selectbox, and the tolerance and surface
   * finish typed in.
   */
  datatype Form = Form(numbers: map<string, int>, texts: map<string, string>, grade: nat,
                       tolerance: real, surfaceFinish: real)

  // ---------------------------------------------------------------------------
  // Widgets
  // ---------------------------------------------------------------------------

  /** A number_input with min_value and max_value keeps its value between them. */
  function Clamp(x: int, lo: int, hi: int): (r: int)
    requires lo <= hi
    ensures lo <= r <= hi
    ensures lo <= x <= hi ==> r == x
  {
    if x < lo then lo else if hi < x then hi else x
  }

  /** The clamped value is the whole number of [lo, hi] nearest to the one entered. */
  lemma {:induction false} ClampIsNearest(x: int, lo: int, hi: int, y: int)
    requires lo <= hi && lo <= y <= hi
    ensures var r := Clamp(x, lo, hi); (if r <= x then x - r else r - x) <= (if y <= x then x - y else y - x)
  {
  }

  /**
   * `st.selectbox(label, options)` with the user's choice given as a
   * position: an out-of-range position leaves Streamlit's default, the
   * first option, and a selectbox without options returns None.
   */
  function Selectbox(options: seq<string>, index: nat): (r: Option<string>)
    ensures r.Some? <==> |options| > 0
    ensures r.Some? ==> r.value in options
    ensures index < |options| ==> r == Some(options[index])
  {
    if |options| == 0 then None else if index < |options| then Some(options[index]) else Some(options[0])
  }

  /**
   * What one widget returns for the feature it asks for: its single option,
   * the whole number entered kept within the bounds (the lower bound when
   * nothing was entered), or the text entered (empty when nothing was);
   * the deferred two return nothing in the loop.
   */
  function WidgetValue(w: Widget, feature: string, form: Form): (r: Option<Value>)
    requires w.BoundedNumber? ==> w.min <= w.max
    ensures r.None? <==> w.Deferred?
    ensures w.FixedChoice? ==> r == Some(Text(w.option))
    ensures w.BoundedNumber? ==>
              && r.Some? && r.value.Whole? && w.min <= r.value.whole <= w.max
              && (feature in form.numbers && w.min <= form.numbers[feature] <= w.max ==> r.value.whole == form.numbers[feature])
              && (feature !in form.numbers ==> r.value.whole == w.min)
    ensures w.FreeText? ==>
              && r.Some? && r.value.Text?
              && r.value.text == (if feature in form.texts then form.texts[feature] else "")
  {
    match w
    case FixedChoice(option) => Some(Text(option))
    case BoundedNumber(lo, hi) => Some(Whole(Clamp(if feature in form.numbers then form.numbers[feature] else lo, lo, hi)))
    case FreeText => Some(Text(if feature in form.texts then form.texts[feature] else ""))
    case Deferred => None
  }

  /**
   * The value the loop of `collect_input_data` stores for a feature of a
   * tool: the single option of a material selectbox, a whole number within
   * the declared bounds, or free text; nothing for Tolerance and Surface
   * finish.
   */
  function FeatureValue(tool: string, feature: string, form: Form): (r: Option<Value>)
    ensures r.None? <==> feature == Tolerance || feature == SurfaceFinish
    ensures feature in Material ==> r.Some? && r.value.Text? && (feature, r.value.text) in FixedOptions
    ensures WidgetFor(tool, feature).BoundedNumber? ==>
              r.Some? && r.value.Whole? && WidgetFor(tool, feature).min <= r.value.whole <= WidgetFor(tool, feature).max
  {
    BoundedBranches(tool, feature);
    FixedChoiceBranches(tool, feature);
    WidgetValue(WidgetFor(tool, feature), feature, form)
  }

  // ---------------------------------------------------------------------------
  // The feature loop
  // ---------------------------------------------------------------------------

  /**
   * `tool_input_data` after the loop over `features`: every listed feature
   * maps to its widget's value, Tolerance and Surface finish are not yet
   * recorded, and no key is stored twice.
   */
  function CollectFeatures(tool: string, features: seq<string>, form: Form): (rec: Dict<Value>)
    ensures DistinctKeys(rec)
    ensures forall k :: Get(rec, k) == if k in features then FeatureValue(tool, k, form) else None
    decreases |features|
  {
    if |features| == 0 then []
    else
      var n := |features| - 1;
      var pre := CollectFeatures(tool, features[..n], form);
      var f := features[n];
      assert features == features[..n] + [f];
      match FeatureValue(tool, f, form)
      case None => pre
      case Some(v) =>
        PutKeepsDistinct(pre, f, v);
        assert forall k :: Get(Put(pre, f, v), k) == if k == f then Some(v) else Get(pre, k) by {
          forall k ensures Get(Put(pre, f, v), k) == if k == f then Some(v) else Get(pre, k) {
            GetPut(pre, f, v, k);
          }
        }
        Put(pre, f, v)
  }

  /** A list of names without repeats. */
  predicate NoRepeats(s: seq<string>) {
    forall m, n :: 0 <= m < n < |s| ==> s[m] != s[n]
  }

  /** Features without repeats, none of them deferred, are recorded in the order they are listed. */
  lemma {:induction false} CollectFeaturesInOrder(tool: string, features: seq<string>, form: Form)
    requires NoRepeats(features)
    requires Tolerance !in features && SurfaceFinish !in features
    ensures Keys(CollectFeatures(tool, features, form)) == features
    decreases |features|
  {
    if |features| > 0 {
      var n := |features| - 1;
      var pre := features[..n];
      var f := features[n];
      assert features == pre + [f];
      CollectFeaturesInOrder(tool, pre, form);
      assert f !in pre;
    }
  }

  /** The loop records nothing for a trailing Tolerance and Surface finish. */
  lemma {:induction false} DeferredAddNothing(tool: string, pre: seq<string>, form: Form)
    ensures CollectFeatures(tool, pre + [Tolerance, SurfaceFinish], form) == CollectFeatures(tool, pre, form)
  {
    var fs := pre + [Tolerance, SurfaceFinish];
    assert fs[..|fs| - 1] == pre + [Tolerance];
    assert (pre + [Tolerance])[..|pre|] == pre;
  }

  // ---------------------------------------------------------------------------
  // The grade and the two checks
  // ---------------------------------------------------------------------------

  /** The two grade tables `collect_input_data` reads. */
  datatype GradeTables = GradeTables(tolerance: Dict<Dict<string>>, finish: Dict<Dict<string>>)

  /** The tables as the app ships them. */
  const AsWritten := GradeTables(ToleranceToNumericRange, ToleranceToSurfaceFinish)

  /** The tables with the Boss coarse tolerance range corrected. */
  const Corrected := GradeTables(CorrectedToleranceToNumericRange, ToleranceToSurfaceFinish)

  /**
   * The grade chosen in the selectbox over the tool's tolerance grades:
   * the grade at the user's position (the first grade when the position
   * stands for the untouched default), KeyError for a tool the tolerance
   * table lacks, and a lookup of None for a tool without grades.
   */
  function GradeChoice(tables: GradeTables, tool: string, index: nat): (r: Result<string, Exception>)
    ensures r.Success? ==> Lookup(tables.tolerance, tool, r.value).Some?
    ensures r == Failure(KeyError(tool)) <==> tool !in Keys(tables.tolerance)
    ensures Get(tables.tolerance, tool).Some? ==>
              var row := Get(tables.tolerance, tool).value;
              && (|row| == 0 ==> r == Failure(NoneKeyError))
              && (index < |row| ==> r == Success(row[index].0))
              && (0 < |row| <= index ==> r == Success(row[0].0))
  {
    match Get(tables.tolerance, tool)
    case None => Failure(KeyError(tool))
    case Some(row) =>
      match Selectbox(Keys(row), index)
      case None => Failure(NoneKeyError)
      case Some(grade) => Success(grade)
  }

  /**
   * The checks of `collect_input_data` once the loop is done: Success(true)
   * when the tolerance and then the surface finish lie in the ranges of the
   * chosen grade, Success(false) when either does not, and Failure for the
   * exceptions a lookup or a `float()` raises. The surface-finish range is
   * looked up only after the tolerance has passed.
   */
  function Verdict(tables: GradeTables, tool: string, form: Form): (r: Result<bool, Exception>)
    ensures r.Success? ==> GradeChoice(tables, tool, form.grade).Success?
    ensures r == Success(true) ==>
              var grade := GradeChoice(tables, tool, form.grade).value;
              Lookup(tables.finish, tool, grade).Some?
              && CheckBounds(Lookup(tables.tolerance, tool, grade).value, form.tolerance) == Success(true)
              && CheckBounds(Lookup(tables.finish, tool, grade).value, form.surfaceFinish) == Success(true)
    ensures GradeChoice(tables, tool, form.grade).Failure? ==> r == Failure(GradeChoice(tables, tool, form.grade).error)
    ensures GradeChoice(tables, tool, form.grade).Success? ==>
              var grade := GradeChoice(tables, tool, form.grade).value;
              var toleranceCheck := CheckBounds(Lookup(tables.tolerance, tool, grade).value, form.tolerance);
              && (toleranceCheck.Failure? ==> r == toleranceCheck)
              && (toleranceCheck == Success(false) ==> r == Success(false))
              && (toleranceCheck == Success(true) && tool !in Keys(tables.finish) ==> r == Failure(KeyError(tool)))
              && (toleranceCheck == Success(true) && tool in Keys(tables.finish) && Lookup(tables.finish, tool, grade).None? ==>
                    r == Failure(KeyError(grade)))
              && (toleranceCheck == Success(true) && Lookup(tables.finish, tool, grade).Some? ==>
                    r == CheckBounds(Lookup(tables.finish, tool, grade).value, form.surfaceFinish))
  {
    match GradeChoice(tables, tool, form.grade)
    case Failure(e) => Failure(e)
    case Success(grade) =>
      match CheckBounds(Lookup(tables.tolerance, tool, grade).value, form.tolerance)
      case Failure(e) => Failure(e)
      case Success(inRange) =>
        if !inRange then Success(false)
        else
          match Get(tables.finish, tool)
          case None => Failure(KeyError(tool))
          case Some(finishRow) =>
            match Get(finishRow, grade)
            case None => Failure(KeyError(grade))
            case Some(finishText) => CheckBounds(finishText, form.surfaceFinish)
  }

  /**
   * `collect_input_data(tool, features)`: the record of the loop completed
   * with the tolerance and the surface finish when both checks pass, None
   * when either fails, and the exception when one is raised.
   */
  function CollectInputData(tables: GradeTables, tool: string, features: seq<string>, form: Form)
    : (r: Result<Option<Dict<Value>>, Exception>)
    ensures r.Success? <==> Verdict(tables, tool, form).Success?
    ensures r.Success? ==> (r.value.Some? <==> Verdict(tables, tool, form).value)
    ensures r.Failure? ==> r.error == Verdict(tables, tool, form).error
  {
    match Verdict(tables, tool, form)
    case Failure(e) => Failure(e)
    case Success(valid) =>
      if !valid then Success(None)
      else
        var record := CollectFeatures(tool, features, form);
        Success(Some(Put(Put(record, Tolerance, Number(form.tolerance)), SurfaceFinish, Number(form.surfaceFinish))))
  }

  /**
   * The same decision on the numbers of the tables: the chosen grade has
   * both a tolerance and a surface-finish range, and each value lies in its
   * range, ends included.
   */
  predicate Accepts(toleranceValues: Dict<Dict<NumericRange>>, finishValues: Dict<Dict<NumericRange>>,
                    tool: string, grade: string, tolerance: real, surfaceFinish: real)
  {
    && Lookup(toleranceValues, tool, grade).Some? && Contains(Lookup(toleranceValues, tool, grade).value, tolerance)
    && Lookup(finishValues, tool, grade).Some? && Contains(Lookup(finishValues, tool, grade).value, surfaceFinish)
  }

  /**
   * For tables whose range strings all parse and whose two tables list the
   * same grades, the checks raise nothing once a grade is chosen, and they
   * pass exactly when the numbers accept both values.
   */
  lemma {:induction false} VerdictMatchesNumbers(tables: GradeTables, toleranceValues: Dict<Dict<NumericRange>>,
                                                 finishValues: Dict<Dict<NumericRange>>, tool: string, form: Form)
    requires Decodes(tables.tolerance, toleranceValues) && Decodes(tables.finish, finishValues)
    requires SameShape(tables.tolerance, tables.finish)
    requires GradeChoice(tables, tool, form.grade).Success?
    ensures Verdict(tables, tool, form)
         == Success(Accepts(toleranceValues, finishValues, tool, GradeChoice(tables, tool, form.grade).value,
                            form.tolerance, form.surfaceFinish))
  {
    var grade := GradeChoice(tables, tool, form.grade).value;
    var toleranceText := Lookup(tables.tolerance, tool, grade).value;
    LookupDecodes(tables.tolerance, toleranceValues, tool, grade);
    assert RangeOf(toleranceText) == Lookup(toleranceValues, tool, grade);
    var rg := Lookup(toleranceValues, tool, grade).value;
    assert CheckBounds(toleranceText, form.tolerance) == Success(Contains(rg, form.tolerance));
    if Contains(rg, form.tolerance) {
      LookupSameShape(tables.tolerance, tables.finish, tool, grade);
      LookupDecodes(tables.finish, finishValues, tool, grade);
      var finishText := Lookup(tables.finish, tool, grade).value;
      assert Get(Get(tables.finish, tool).value, grade) == Some(finishText);
      assert CheckBounds(finishText, form.surfaceFinish)
          == Success(Contains(Lookup(finishValues, tool, grade).value, form.surfaceFinish));
    }
  }

  /**
   * For such tables `collect_input_data` raises nothing once a grade is
   * chosen, and it returns a record exactly when the numbers accept both
   * values.
   */
  lemma {:induction false} CollectMatchesNumbers(tables: GradeTables, toleranceValues: Dict<Dict<NumericRange>>,
                                                 finishValues: Dict<Dict<NumericRange>>,
                                                 tool: string, features: seq<string>, form: Form)
    requires Decodes(tables.tolerance, toleranceValues) && Decodes(tables.finish, finishValues)
    requires SameShape(tables.tolerance, tables.finish)
    requires GradeChoice(tables, tool, form.grade).Success?
    ensures var r := CollectInputData(tables, tool, features, form);
            && r.Success?
            && (r.value.Some? <==> Accepts(toleranceValues, finishValues, tool, GradeChoice(tables, tool, form.grade).value,
                                           form.tolerance, form.surfaceFinish))
  {
    VerdictMatchesNumbers(tables, toleranceValues, finishValues, tool, form);
  }

  /**
   * A tolerance outside its range gives None whatever the surface finish
   * and whatever the surface-finish table holds: the second check and its
   * lookup never happen.
   */
  lemma {:induction false} ToleranceFailureShortCircuits(tables: GradeTables, tool: string, features: seq<string>,
                                                         form: Form, finish: Dict<Dict<string>>, surfaceFinish: real)
    requires GradeChoice(tables, tool, form.grade).Success?
    requires var text := Lookup(tables.tolerance, tool, GradeChoice(tables, tool, form.grade).value).value;
             RangeOf(text).Some? && !Contains(RangeOf(text).value, form.tolerance)
    ensures CollectInputData(tables, tool, features, form) == Success(None)
    ensures CollectInputData(tables.(finish := finish), tool, features, form.(surfaceFinish := surfaceFinish)) == Success(None)
  {
    assert GradeChoice(tables.(finish := finish), tool, form.(surfaceFinish := surfaceFinish).grade) == GradeChoice(tables, tool, form.grade);
  }

  /** A tool the tolerance table lacks raises KeyError for that tool. */
  lemma {:induction false} UnknownToolRaises(tables: GradeTables, tool: string, features: seq<string>, form: Form)
    requires tool !in Keys(tables.tolerance)
    ensures CollectInputData(tables, tool, features, form) == Failure(KeyError(tool))
  {
  }

  /**
   * A returned record binds Tolerance and Surface finish to the two values
   * checked and every other listed feature to its widget's value, and
   * holds nothing else.
   */
  lemma {:induction false} RecordContents(tables: GradeTables, tool: string, features: seq<string>, form: Form, k: string)
    requires CollectInputData(tables, tool, features, form).Success?
    requires CollectInputData(tables, tool, features, form).value.Some?
    ensures var rec := CollectInputData(tables, tool, features, form).value.value;
            && DistinctKeys(rec)
            && Get(rec, k) == if k == Tolerance then Some(Number(form.tolerance))
                              else if k == SurfaceFinish then Some(Number(form.surfaceFinish))
                              else if k in features then FeatureValue(tool, k, form)
                              else None
  {
    var record := CollectFeatures(tool, features, form);
    var withTolerance := Put(record, Tolerance, Number(form.tolerance));
    PutKeepsDistinct(record, Tolerance, Number(form.tolerance));
    PutKeepsDistinct(withTolerance, SurfaceFinish, Number(form.surfaceFinish));
    GetPut(record, Tolerance, Number(form.tolerance), k);
    GetPut(withTolerance, SurfaceFinish, Number(form.surfaceFinish), k);
  }

  /** Recording the two checked values after the loop appends their two keys. */
  lemma {:induction false} ChecksAppendKeys(record: Dict<Value>, pre: seq<string>, tolerance: real, surfaceFinish: real)
    requires Keys(record) == pre && Tolerance !in pre && SurfaceFinish !in pre
    ensures Keys(Put(Put(record, Tolerance, Number(tolerance)), SurfaceFinish, Number(surfaceFinish)))
         == pre + [Tolerance, SurfaceFinish]
  {
    var withTolerance := Put(record, Tolerance, Number(tolerance));
    assert Keys(withTolerance) == pre + [Tolerance];
    assert SurfaceFinish !in pre + [Tolerance];
    assert pre + [Tolerance] + [SurfaceFinish] == pre + [Tolerance, SurfaceFinish];
  }

  /** The features before a trailing Tolerance and Surface finish, when nothing repeats, hold neither. */
  lemma {:induction false} PrefixLacksChecks(features: seq<string>)
    requires NoRepeats(features) && |features| >= 2
    requires features[|features| - 2] == Tolerance && features[|features| - 1] == SurfaceFinish
    ensures var pre := features[..|features| - 2];
            && features == pre + [Tolerance, SurfaceFinish]
            && NoRepeats(pre) && Tolerance !in pre && SurfaceFinish !in pre
  {
    var pre := features[..|features| - 2];
    assert features == pre + [Tolerance, SurfaceFinish];
    forall m | 0 <= m < |pre| ensures pre[m] != Tolerance && pre[m] != SurfaceFinish {
      assert pre[m] == features[m];
    }
  }

  /**
   * When the features end with Tolerance and Surface finish and repeat
   * nothing, as every tool of `tools_info` does, a returned record has
   * exactly the declared features as keys, in the declared order.
   */
  lemma {:induction false} RecordKeysAreFeatures(tables: GradeTables, tool: string, features: seq<string>, form: Form)
    requires NoRepeats(features) && |features| >= 2
    requires features[|features| - 2] == Tolerance && features[|features| - 1] == SurfaceFinish
    requires CollectInputData(tables, tool, features, form).Success?
    requires CollectInputData(tables, tool, features, form).value.Some?
    ensures Keys(CollectInputData(tables, tool, features, form).value.value) == features
  {
    PrefixLacksChecks(features);
    var pre := features[..|features| - 2];
    DeferredAddNothing(tool, pre, form);
    CollectFeaturesInOrder(tool, pre, form);
    ChecksAppendKeys(CollectFeatures(tool, features, form), pre, form.tolerance, form.surfaceFinish);
  }
}
