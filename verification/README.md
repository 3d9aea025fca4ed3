# Machining operations form: tolerance and surface-finish validation

This project models the core of `app.py`, a Streamlit front end that
gathers machining-feature parameters for six tools and hands them to a
pickled per-tool model. The tools are Boss, Chamfer, Fillet, Hole, Pocket
and Step. The model covers three parts of the app:

- **Registry.** The static per-tool schema `tools_info`. For each tool it
  lists the input features in order, the model path, and the output
  headings.
- **Grade tables.** `tolerance_to_numeric_range` maps a tool and an ISO
  tolerance grade label to a range string such as `'0.014 -  0.06'`.
  `tolerance_to_surface_finish` maps the same keys to the grade's
  surface-finish range.
- **`collect_input_data`, without the widgets.** Each feature goes through
  the if/elif chain that picks its widget. A grade is chosen from the
  tool's tolerance grades. The range string is read with `split('-')` and
  `float()`. The tolerance is checked inclusively, and only if it passes is
  the surface finish checked against the same grade's range. The function
  returns the completed record or `None`.

Modules, one file each:

- `Wrappers` (wrappers.dfy): `Option`, `Result`, and the Python exceptions
  the code can raise: `KeyError`, `IndexError`, `ValueError`, and a lookup
  of `None`.
- `PyText` (text.dfy): `str.split` with a one-character separator, and
  `float()` for unsigned decimal numerals padded with whitespace.
- `Dicts` (dicts.dfy): Python dicts as insertion-ordered association lists.
- `Ranges` (ranges.dfy): range strings, and the chained comparison
  `float(r.split('-')[0]) <= v <= float(r.split('-')[1])`, including its
  evaluation order.
- `Registry` (registry.dfy): `tools_info` and the two grade tables, copied
  exactly.
- `RangeTexts` (range_texts.dfy): what `float()` reads from each literal
  range string.
- `Grades` (grades.dfy): the tables as numbers. It also holds the Boss
  correction described under Findings.
- `Features` (features.dfy): the widget chain, and the bounds a feature name
  declares.
- `Collect` (collect.dfy): `collect_input_data` over any pair of grade
  tables.
- `Outcomes` (outcomes.dfy): what `collect_input_data` does with the shipped
  tables and with the corrected ones.

Widgets are inputs. A `Form` holds three kinds of value:

- the whole numbers and texts the user typed, keyed by feature;
- the position of the chosen grade in the grade selectbox;
- the tolerance and surface finish.

Numbers are exact `real`s.

Four facts about the code shape the model:

- Nothing checks that a range's low end is at most its high end. Boss
  'IT11 - IT13' reads '0.6 - 0.33' (see Findings).
- A tool or grade missing from a table raises `KeyError`.
- A range piece that `float()` cannot read raises `ValueError`. Nothing
  catches it, so it escapes `collect_input_data`.
- A bounded `number_input` keeps its value within its bounds. The model
  clamps the value there.

## Model

| member | source | states |
|---|---|---|
| PyText.Split | app.py:235 | `text.split(sep)` always has a first piece, so `split('-')[0]` never raises IndexError |
| PyText.SplitCountsSeparators | app.py:235 | `text.split(sep)` has one piece more than the text holds separators |
| PyText.SplitThenJoin | app.py:235 | joining the pieces of `text.split(sep)` with `sep` gives back the text |
| PyText.SplitJoin | app.py:235 | splitting the join of separator-free pieces gives back exactly those pieces |
| PyText.SplitPiecesLackSeparator | app.py:235 | no piece of `text.split(sep)` contains `sep` |
| PyText.ParseFloat | app.py:235 | a number `float()` reads from a range piece is never negative; None stands for the ValueError it raises |
| PyText.ParseFloatOfDecimal | app.py:235 | `float()` of a whitespace-padded `w.f` with a digit on at least one side is w + f/10^len(f) |
| PyText.ParseFloatOfInteger | app.py:235 | `float()` of a whitespace-padded digit string is its whole-number value |
| PyText.ParseFloatRejectsStray | app.py:235 | `float()` raises ValueError on text holding anything other than digits, whitespace and '.' |
| PyText.ParseFloatRejectsBlank | app.py:235 | `float()` raises ValueError on empty or all-blank text |
| Ranges.RangeOf | app.py:235 | both numbers a range string denotes are non-negative |
| Ranges.OneSeparatorTwoPieces | app.py:235 | `split('-')` gives exactly two pieces iff the text holds exactly one '-' |
| Ranges.RangeOfIsSplit | app.py:235 | the two numbers of a range string are `float()` of pieces 0 and 1 of its `split('-')`, and a second piece exists iff the text holds '-' |
| Ranges.RangeOfPieces | app.py:235 | `lo + '-' + hi` denotes `(float(lo), float(hi))` when both parse, and nothing otherwise |
| Ranges.CheckBounds | app.py:235 | the chained comparison gives low <= v <= high for a range string that parses, and raises only for one that does not |
| Ranges.ChainedComparisonStopsEarly | app.py:235 | a value below the first number is rejected without reading the second piece |
| Ranges.MissingSeparatorRaises | app.py:235 | a range string without '-' raises IndexError once its one number does not exceed the value |
| Registry.HeadingCounts | app.py:6-73 | Hole has five output headings, every other tool three |
| Dicts.Keys | app.py:231 | `list(d.keys())`: one key per entry, in insertion order |
| Dicts.Get | app.py:232 | `d[k]` finds a value iff k is a key of d, and the value found is one stored under k |
| Dicts.Put | app.py:239 | `d[k] = v` keeps the keys in order, appending k when it is new |
| Dicts.GetPut | app.py:239 | after `d[k] = v`, `d[k]` is v and every other key reads as before |
| Dicts.PutKeepsDistinct | app.py:248 | `d[k] = v` never stores a key twice |
| Grades.Lookup | app.py:232 | `table[tool][grade]` finds a value iff the tool is a key of the table and the grade a key of its row, and it is the value stored there |
| Grades.TablesAgree | app.py:6-143 | `tools_info` and both grade tables list the same six tools in order, and the two grade tables list the same grades per tool in order |
| Grades.FinishLookupNeverMisses | app.py:240 | every (tool, grade) of the tolerance table has a surface-finish range |
| Grades.LookupDecodes | app.py:232 | looking up a range string and reading it gives the numbers at the same tool and grade, and the string holds exactly one '-' |
| Grades.ToleranceTableParses | app.py:76-108 | every tolerance range string holds exactly one '-', so it splits into exactly two pieces, and parses to the two numbers written in it |
| Grades.FinishTableParses | app.py:111-143 | every surface-finish range string holds exactly one '-', so it splits into exactly two pieces, and parses to the two numbers written in it |
| Grades.FinishRangesOrdered | app.py:111-143 | every surface-finish range has low <= high |
| Grades.OneInvertedToleranceRange | app.py:76-108 | a tolerance range has low <= high iff it is not Boss 'IT11 - IT13' |
| Grades.GradesMeetExceptBoss | app.py:76-108 | in the five three-grade tools, adjacent grades share a boundary in every tool but Boss |
| Grades.CorrectedTableAgrees | app.py:76-143 | the corrected tolerance table keeps every tool and grade of the surface-finish table |
| Grades.CorrectedTableParses | app.py:77-81 | every range string of the corrected table parses, Boss 'IT11 - IT13' to (0.06, 0.33) |
| Grades.CorrectedRangesOrdered | app.py:76-108 | in the corrected table every range runs upward and adjacent grades meet |
| Features.WidgetFor | app.py:172-228 | only Tolerance and Surface finish are left out of the feature loop |
| Features.FixedChoiceBranches | app.py:173-180 | exactly the four material features get a single-option selectbox, with options '1', '35.45', '2870' and '0.26' |
| Features.BoundedBranches | app.py:182-225 | every bounded number_input offers whole numbers with 0 <= min < max |
| Features.EveryFeatureIsTyped | app.py:173-228 | every declared feature of every tool except Tolerance and Surface finish reaches a fixed-choice branch, or a numeric branch whose bounds are those its name declares; none falls through to free text |
| Collect.Clamp | app.py:182-184 | a bounded number_input returns a value within its bounds, and the one entered when that already is |
| Collect.ClampIsNearest | app.py:182-184 | the value kept is the nearest allowed one to the value entered |
| Collect.Selectbox | app.py:231 | the grade selectbox returns one of its options, the one chosen when there is such an option, and None only when it has none |
| Collect.WidgetValue | app.py:173-228 | a single-option selectbox returns its option; a bounded number_input returns a whole number within its bounds, the one entered when it is within them, min_value when nothing was entered; a text_input returns the text entered, '' when nothing was; Tolerance and Surface finish return nothing in the loop |
| Collect.FeatureValue | app.py:172-228 | a feature records nothing iff it is Tolerance or Surface finish; material features record their listed option; bounded features record a number within bounds |
| Collect.CollectFeatures | app.py:170-228 | after the loop every listed feature maps to its widget's value, nothing else is recorded, and no key repeats |
| Collect.CollectFeaturesInOrder | app.py:172-228 | without repeats or deferred features, the record's keys are the features in order |
| Collect.DeferredAddNothing | app.py:227-228 | trailing Tolerance and Surface finish add nothing in the loop |
| Collect.GradeChoice | app.py:231-232 | the chosen grade is the tool's grade at the user's selectbox position (the first grade for the untouched default) and has a tolerance range; KeyError(tool) is raised exactly for a tool missing from the table, and a tool without grades raises the KeyError of `d[None]` |
| Collect.Verdict | app.py:235-246 | the checks pass iff a grade is chosen, the tolerance comparison holds, the grade has a surface-finish range and the surface-finish comparison holds; a failed tolerance comparison gives false without a surface-finish lookup; a missed surface-finish lookup raises KeyError(tool) or KeyError(grade); the first exception raised is the result |
| Collect.CollectInputData | app.py:169-250 | the function raises exactly when the checks raise, with the same exception, and returns a record exactly when both checks pass |
| Collect.VerdictMatchesNumbers | app.py:235-246 | for tables that parse and agree, the checks raise nothing and pass iff the tolerance and the surface finish lie in the grade's ranges, ends included |
| Collect.CollectMatchesNumbers | app.py:169-250 | for such tables the function returns a record iff both values lie in the chosen grade's ranges |
| Collect.ToleranceFailureShortCircuits | app.py:235-237 | a tolerance outside its range gives None whatever the surface finish, and whatever the surface-finish table holds |
| Collect.UnknownToolRaises | app.py:231 | a tool missing from the tolerance table raises KeyError for that tool |
| Collect.RecordContents | app.py:239-250 | a returned record binds Tolerance and Surface finish to the checked values and every other listed feature to its widget's value, and holds nothing else |
| Collect.RecordKeysAreFeatures | app.py:169-250 | when the features end with Tolerance and Surface finish and nothing repeats, a returned record's keys are the features in order |
| Outcomes.ShippedGradeChoice | app.py:231-232 | for every tool of `tools_info`, choosing a grade raises nothing, in either table version |
| Outcomes.AsWrittenOutcome | app.py:169-250 | for every shipped tool the app raises nothing, and returns a record iff the chosen grade's numbers accept both values |
| Outcomes.CorrectedOutcome | app.py:169-250 | the same with the Boss coarse range corrected |
| Outcomes.EndsAccepted | app.py:76-143 | every grade except Boss 'IT11 - IT13' accepts the lower ends of its tolerance and surface-finish ranges together, and their upper ends together |
| Outcomes.CorrectedEndsAccepted | app.py:76-143 | with the Boss coarse range corrected, every grade accepts the ends of its ranges |
| Outcomes.BossDefaultGrade | app.py:231 | the grade selectbox for Boss starts at 'IT11 - IT13' |
| Outcomes.BossCoarseGradeAlwaysRejected | app.py:78 | with Boss 'IT11 - IT13' the form always yields None |
| Outcomes.CorrectedBossCoarseGrade | app.py:78 | once corrected, Boss 'IT11 - IT13' accepts exactly tolerances 0.06..0.33 with surface finishes 0.01..0.020 |
| Outcomes.HoleIT7Window | app.py:94 | Hole 'IT7' accepts exactly tolerances 0.01..0.018 with surface finishes 0.0008..0.0016 |
| Outcomes.HoleIT7Examples | app.py:94 | Hole 'IT7' accepts tolerances 0.01, 0.015 and 0.018 and rejects 0.02 |
| Outcomes.BossMiddleGradeFinish | app.py:114 | after a passing tolerance, Boss 'IT8 - IT11' accepts exactly surface finishes 0.00125..0.010 |
| Outcomes.BossMiddleGradeFinishEdge | app.py:114 | Boss 'IT8 - IT11' accepts the boundary surface finish 0.00125 and rejects 0.00124 |
| Outcomes.UnknownToolSlot | app.py:231 | an unlisted tool such as 'Slot' raises KeyError('Slot') |
| Outcomes.FeatureListsEndWithChecks | app.py:6-73 | every tool lists its features without repeats, ending with Tolerance and Surface finish |
| Outcomes.ShippedRecordKeys | app.py:169-250 | a record returned for a shipped tool has exactly the tool's declared features as keys, in order |

## Left out

- `load_models`, `pickle.load` and `predict_operation` (app.py:146-166) are
  left out. They are file I/O and calls into an opaque trained model.
- `main` (app.py:252-271) is left out: the sidebar multiselect, expanders,
  the Predict button, the `DataFrame` and the printing of predictions. The
  tools `main` passes in are the keys of `tools_info`. The `Outcomes`
  lemmas take exactly those tools.
- Streamlit rendering is left out: labels, widget keys, `st.error` and
  `st.write` messages. Messages do not affect the returned value.
- Binary floating point is left out, including the `%.3f` and `%.4f` input
  formats. Values and range ends are exact reals, so boundary cases are
  decided on the decimal numbers as written.
- PyText.ParseFloat: models `float()` only for unsigned decimal numerals
  padded with the six ASCII whitespace characters (space, tab, LF, CR, VT,
  FF). Python also strips U+001C to U+001F, U+0085, U+00A0 and the other
  Unicode spaces, and accepts signs, exponents, `inf`/`nan`, underscores
  between digits and Unicode digits. The model reads all of these as
  ValueError. No range piece of either table uses any of them.
- Collect.Clamp: the browser widget refuses an out-of-range entry instead
  of returning it. The model stands for this with the nearest allowed
  value.
- Collect.Selectbox: the user's choice is a position in the list of
  options. A position past the end stands for leaving Streamlit's default,
  the first option.
- Collect.WidgetValue: a widget the user has not touched returns its
  default. That is min_value for a bounded number_input and '' for a
  text_input.

## Findings

| source | as written | input that shows it | evidently intended | confidence | as-written member | corrected member |
|---|---|---|---|---|---|---|
| app.py:78 | Boss 'IT11 - IT13' has tolerance range '0.6 - 0.33', low above high | tool Boss, grade 'IT11 - IT13' (the selectbox default), tolerance 0.1 or any other value: the result is None | '0.06 - 0.33'. It starts where Boss 'IT8 - IT11' ends (0.06), as the coarse grade does in Fillet, Chamfer, Pocket and Step (Grades.GradesMeetExceptBoss) | high; not executed | Outcomes.BossCoarseGradeAlwaysRejected | Outcomes.CorrectedBossCoarseGrade |
