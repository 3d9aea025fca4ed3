/**
 * Which input widget `collect_input_data` shows for each feature of a tool
 * (the if/elif chain of app.py:173-228), and the bounds a feature name
 * declares in its `{Range : a - b}` suffix.
 */
module Features {
  import opened Wrappers
  import opened PyText
  import opened Registry

  /** The widget one branch of the chain shows. */
  datatype Widget =
    | FixedChoice(option: string)          // a selectbox with a single option
    | BoundedNumber(min: int, max: int)    // a number_input with integer min_value and max_value
    | FreeText                             // a text_input
    | Deferred                             // Tolerance and Surface finish, asked for after the loop

  /** The four single-option selectboxes, by feature. */
  const FixedOptions: seq<(string, string)> :=
    [(MaterialType, "1"), (Hardness, "35.45"), (Density, "2870"), (Poisson, "0.26")]

  /** The branch of the chain that a feature of a tool falls into, tried in source order. */
  function WidgetFor(tool: string, feature: string): (w: Widget)
    ensures w == Deferred <==> feature == Tolerance || feature == SurfaceFinish
  {
    if feature == MaterialType then FixedChoice("1")
    else if feature == Hardness then FixedChoice("35.45")
    else if feature == Density then FixedChoice("2870")
    else if feature == Poisson then FixedChoice("0.26")

    else if feature == "Length[mm] {Range : 3 - 30}" && tool == "Boss" then BoundedNumber(3, 30)
    else if feature == "Diameter[mm] {Range : 0 - 18}" && tool == "Boss" then BoundedNumber(0, 18)

    else if feature == "Length[mm]{Range : 6 - 10}" && tool == "Chamfer" then BoundedNumber(6, 10)
    else if feature == "Angle {Range : 25° - 45°}" && tool == "Chamfer" then BoundedNumber(25, 45)

    else if feature == "Radius[mm]{Range : 0 - 6}" && tool == "Fillet" then BoundedNumber(0, 6)

    else if feature == "Diameter[mm]{Range : 0 - 10}" && tool == "Hole" then BoundedNumber(0, 10)
    else if feature == "Depth[mm]{Range : 0 - 20}" && tool == "Hole" then BoundedNumber(0, 20)

    else if feature == "Length[mm]{Range : 3 - 80}" && tool == "Pocket" then BoundedNumber(3, 80)
    else if feature == "Depth[mm]{Range : 0 - 20}" && tool == "Pocket" then BoundedNumber(0, 20)
    else if feature == "Width[mm]{Range : 3 - 80}" && tool == "Pocket" then BoundedNumber(3, 80)

    else if feature == "Length[mm]{Range : 10 - 100}" && tool == "Step" then BoundedNumber(10, 100)
    else if feature == "Depth[mm]{Range : 6 - 10}" && tool == "Step" then BoundedNumber(6, 10)
    else if feature == "Width[mm]{Range : 10 - 100}" && tool == "Step" then BoundedNumber(10, 100)

    else if feature !in [Tolerance, SurfaceFinish] then FreeText
    else Deferred
  }

  /** Exactly the four material features get a single-option selectbox, with the option listed for them. */
  lemma {:induction false} FixedChoiceBranches(tool: string, feature: string)
    ensures WidgetFor(tool, feature).FixedChoice? <==> feature in Material
    ensures WidgetFor(tool, feature).FixedChoice? ==> (feature, WidgetFor(tool, feature).option) in FixedOptions
  {
  }

  /** Every numeric branch offers a non-empty range of non-negative whole numbers. */
  lemma {:induction false} BoundedBranches(tool: string, feature: string)
    ensures WidgetFor(tool, feature).BoundedNumber? ==> 0 <= WidgetFor(tool, feature).min < WidgetFor(tool, feature).max
  {
  }

  // ---------------------------------------------------------------------------
  // The bounds a feature name declares
  // ---------------------------------------------------------------------------

  /** The last index in [i, j) holding c. */
  function LastIn(s: string, c: char, i: nat, j: nat): (r: Option<nat>)
    requires i <= j <= |s|
    ensures r.Some? ==> i <= r.value < j && s[r.value] == c
    decreases j - i
  {
    if i == j then None else if s[j - 1] == c then Some(j - 1) else LastIn(s, c, i, j - 1)
  }

  /** The end of the run of digits that starts at i. */
  function DigitsFrom(s: string, i: nat, j: nat): (k: nat)
    requires i <= j <= |s|
    ensures i <= k <= j
    decreases j - i
  {
    if i == j || !IsDigit(s[i]) then i else DigitsFrom(s, i + 1, j)
  }

  /** The start of the run of digits that ends at j. */
  function DigitsUpTo(s: string, i: nat, j: nat): (k: nat)
    requires i <= j <= |s|
    ensures i <= k <= j
    decreases j - i
  {
    if i == j || !IsDigit(s[j - 1]) then j else DigitsUpTo(s, i, j - 1)
  }

  /** Whitespace and the degree sign that may follow a bound. */
  predicate IsFiller(c: char) {
    IsSpace(c) || c == '°'
  }

  /** The end of [i, j) once trailing whitespace and degree signs are dropped. */
  function SkipFillerBack(s: string, i: nat, j: nat): (k: nat)
    requires i <= j <= |s|
    ensures i <= k <= j
    decreases j - i
  {
    if i == j || !IsFiller(s[j - 1]) then j else SkipFillerBack(s, i, j - 1)
  }

  /**
   * The two whole numbers a feature name such as 'Length[mm] {Range : 3 - 30}'
   * or 'Angle {Range : 25° - 45°}' declares: the digits on either side of
   * its last '-'.
   */
  function DeclaredBounds(name: string): (r: Option<(nat, nat)>)
  {
    var n := |name|;
    match LastIn(name, '-', 0, n)
    case None => None
    case Some(m) =>
      var a := SkipSpaces(name, m + 1, n);
      var b := DigitsFrom(name, a, n);
      var e := SkipFillerBack(name, 0, m);
      var d := DigitsUpTo(name, 0, e);
      if a < b && d < e then Some((SpanValue(name, d, e), SpanValue(name, a, b))) else None
  }

  /** DeclaredBounds once the positions its scans stop at are known. */
  lemma {:induction false} DeclaredBoundsAt(name: string, n: nat, m: nat, m1: nat, a: nat, b: nat, e: nat, d: nat, lo: nat, hi: nat)
    requires n == |name| && m < n && m1 == m + 1
    requires LastIn(name, '-', 0, n) == Some(m)
    requires SkipSpaces(name, m1, n) == a && DigitsFrom(name, a, n) == b && a < b
    requires SkipFillerBack(name, 0, m) == e && DigitsUpTo(name, 0, e) == d && d < e
    requires SpanValue(name, d, e) == lo && SpanValue(name, a, b) == hi
    ensures DeclaredBounds(name) == Some((lo, hi))
  {
  }

  lemma {:induction false} DeclaresLength3To30()
    ensures DeclaredBounds("Length[mm] {Range : 3 - 30}") == Some((3, 30))
  {
    DeclaredBoundsAt("Length[mm] {Range : 3 - 30}", 27, 22, 23, 24, 26, 21, 20, 3, 30);
  }

  lemma {:induction false} DeclaresDiameter0To18()
    ensures DeclaredBounds("Diameter[mm] {Range : 0 - 18}") == Some((0, 18))
  {
    DeclaredBoundsAt("Diameter[mm] {Range : 0 - 18}", 29, 24, 25, 26, 28, 23, 22, 0, 18);
  }

  lemma {:induction false} DeclaresLength6To10()
    ensures DeclaredBounds("Length[mm]{Range : 6 - 10}") == Some((6, 10))
  {
    DeclaredBoundsAt("Length[mm]{Range : 6 - 10}", 26, 21, 22, 23, 25, 20, 19, 6, 10);
  }

  lemma {:induction false} DeclaresAngle25To45()
    ensures DeclaredBounds("Angle {Range : 25° - 45°}") == Some((25, 45))
  {
    DeclaredBoundsAt("Angle {Range : 25° - 45°}", 25, 19, 20, 21, 23, 17, 15, 25, 45);
  }

  lemma {:induction false} DeclaresRadius0To6()
    ensures DeclaredBounds("Radius[mm]{Range : 0 - 6}") == Some((0, 6))
  {
    DeclaredBoundsAt("Radius[mm]{Range : 0 - 6}", 25, 21, 22, 23, 24, 20, 19, 0, 6);
  }

  lemma {:induction false} DeclaresDiameter0To10()
    ensures DeclaredBounds("Diameter[mm]{Range : 0 - 10}") == Some((0, 10))
  {
    DeclaredBoundsAt("Diameter[mm]{Range : 0 - 10}", 28, 23, 24, 25, 27, 22, 21, 0, 10);
  }

  lemma {:induction false} DeclaresDepth0To20()
    ensures DeclaredBounds("Depth[mm]{Range : 0 - 20}") == Some((0, 20))
  {
    DeclaredBoundsAt("Depth[mm]{Range : 0 - 20}", 25, 20, 21, 22, 24, 19, 18, 0, 20);
  }

  lemma {:induction false} DeclaresLength3To80()
    ensures DeclaredBounds("Length[mm]{Range : 3 - 80}") == Some((3, 80))
  {
    DeclaredBoundsAt("Length[mm]{Range : 3 - 80}", 26, 21, 22, 23, 25, 20, 19, 3, 80);
  }

  lemma {:induction false} DeclaresWidth3To80()
    ensures DeclaredBounds("Width[mm]{Range : 3 - 80}") == Some((3, 80))
  {
    DeclaredBoundsAt("Width[mm]{Range : 3 - 80}", 25, 20, 21, 22, 24, 19, 18, 3, 80);
  }

  lemma {:induction false} DeclaresLength10To100()
    ensures DeclaredBounds("Length[mm]{Range : 10 - 100}") == Some((10, 100))
  {
    DeclaredBoundsAt("Length[mm]{Range : 10 - 100}", 28, 22, 23, 24, 27, 21, 19, 10, 100);
  }

  lemma {:induction false} DeclaresDepth6To10()
    ensures DeclaredBounds("Depth[mm]{Range : 6 - 10}") == Some((6, 10))
  {
    DeclaredBoundsAt("Depth[mm]{Range : 6 - 10}", 25, 20, 21, 22, 24, 19, 18, 6, 10);
  }

  lemma {:induction false} DeclaresWidth10To100()
    ensures DeclaredBounds("Width[mm]{Range : 10 - 100}") == Some((10, 100))
  {
    DeclaredBoundsAt("Width[mm]{Range : 10 - 100}", 27, 21, 22, 23, 26, 20, 18, 10, 100);
  }


  // ---------------------------------------------------------------------------
  // Every shipped feature has a typed branch
  // ---------------------------------------------------------------------------

  /**
   * A feature of a tool is handled by a typed branch: a single-option
   * selectbox with its listed option, or a number_input whose bounds are the
   * ones the feature's name declares. Tolerance and Surface finish are
   * handled after the loop.
   */
  predicate TypedBranch(tool: string, feature: string) {
    || feature == Tolerance || feature == SurfaceFinish
    || match WidgetFor(tool, feature)
       case FixedChoice(option) => (feature, option) in FixedOptions
       case BoundedNumber(lo, hi) => DeclaredBounds(feature) == Some((lo, hi))
       case _ => false
  }

  /** The typed branches of one tool. */
  predicate ToolIsTyped(i: nat)
    requires i < |ToolsInfo|
  {
    forall m :: 0 <= m < |ToolsInfo[i].1.inputFeatures| ==> TypedBranch(ToolsInfo[i].0, ToolsInfo[i].1.inputFeatures[m])
  }

  /**
   * Every declared feature of every tool in `tools_info`, other than
   * Tolerance and Surface finish, reaches a typed branch: none falls through
   * to the free-text input.
   */
  lemma {:induction false} EveryFeatureIsTyped()
    ensures forall i :: 0 <= i < |ToolsInfo| ==> ToolIsTyped(i)
  {
    BossIsTyped();
    ChamferIsTyped();
    FilletIsTyped();
    HoleIsTyped();
    PocketIsTyped();
    StepIsTyped();
  }

  lemma {:induction false} BossIsTyped()
    ensures ToolIsTyped(0)
  {
    var fs := ToolsInfo[0].1.inputFeatures;
    assert fs == Material + ["Length[mm] {Range : 3 - 30}", "Diameter[mm] {Range : 0 - 18}", Tolerance, SurfaceFinish];
    forall m | 0 <= m < |fs| ensures TypedBranch("Boss", fs[m]) {
      if m == 4 {
        DeclaresLength3To30();
      } else if m == 5 {
        DeclaresDiameter0To18();
      } else if m < 4 {
        assert fs[m] in Material;
      }
    }
  }

  lemma {:induction false} ChamferIsTyped()
    ensures ToolIsTyped(1)
  {
    var fs := ToolsInfo[1].1.inputFeatures;
    assert fs == Material + ["Length[mm]{Range : 6 - 10}", "Angle {Range : 25° - 45°}", Tolerance, SurfaceFinish];
    forall m | 0 <= m < |fs| ensures TypedBranch("Chamfer", fs[m]) {
      if m == 4 {
        DeclaresLength6To10();
      } else if m == 5 {
        DeclaresAngle25To45();
      } else if m < 4 {
        assert fs[m] in Material;
      }
    }
  }

  lemma {:induction false} FilletIsTyped()
    ensures ToolIsTyped(2)
  {
    var fs := ToolsInfo[2].1.inputFeatures;
    assert fs == Material + ["Radius[mm]{Range : 0 - 6}", Tolerance, SurfaceFinish];
    forall m | 0 <= m < |fs| ensures TypedBranch("Fillet", fs[m]) {
      if m == 4 {
        DeclaresRadius0To6();
      } else if m < 4 {
        assert fs[m] in Material;
      }
    }
  }

  lemma {:induction false} HoleIsTyped()
    ensures ToolIsTyped(3)
  {
    var fs := ToolsInfo[3].1.inputFeatures;
    assert fs == Material + ["Diameter[mm]{Range : 0 - 10}", "Depth[mm]{Range : 0 - 20}", Tolerance, SurfaceFinish];
    forall m | 0 <= m < |fs| ensures TypedBranch("Hole", fs[m]) {
      if m == 4 {
        DeclaresDiameter0To10();
      } else if m == 5 {
        DeclaresDepth0To20();
      } else if m < 4 {
        assert fs[m] in Material;
      }
    }
  }

  lemma {:induction false} PocketIsTyped()
    ensures ToolIsTyped(4)
  {
    var fs := ToolsInfo[4].1.inputFeatures;
    assert fs == Material + ["Length[mm]{Range : 3 - 80}", "Depth[mm]{Range : 0 - 20}", "Width[mm]{Range : 3 - 80}", Tolerance, SurfaceFinish];
    forall m | 0 <= m < |fs| ensures TypedBranch("Pocket", fs[m]) {
      if m == 4 {
        DeclaresLength3To80();
      } else if m == 5 {
        DeclaresDepth0To20();
      } else if m == 6 {
        DeclaresWidth3To80();
      } else if m < 4 {
        assert fs[m] in Material;
      }
    }
  }

  lemma {:induction false} StepIsTyped()
    ensures ToolIsTyped(5)
  {
    var fs := ToolsInfo[5].1.inputFeatures;
    assert fs == Material + ["Length[mm]{Range : 10 - 100}", "Depth[mm]{Range : 6 - 10}", "Width[mm]{Range : 10 - 100}", Tolerance, SurfaceFinish];
    forall m | 0 <= m < |fs| ensures TypedBranch("Step", fs[m]) {
      if m == 4 {
        DeclaresLength10To100();
      } else if m == 5 {
        DeclaresDepth6To10();
      } else if m == 6 {
        DeclaresWidth10To100();
      } else if m < 4 {
        assert fs[m] in Material;
      }
    }
  }
}
