/**
 * The static tables of the app: the per-tool schema `tools_info` and the two
 * grade tables that map a tool and an ISO tolerance grade label to the
 * range string the user's tolerance and surface finish must fall in.
 */
module Registry {
  import opened Dicts

  /** One entry of `tools_info`. */
  datatype ToolInfo = ToolInfo(modelPath: string, inputFeatures: seq<string>, outputHeadings: seq<string>)

  const MaterialType := "Material Type [Aluminimum Alloy - 1]"
  const Hardness := "Material Hardness Number[Rockwell]"
  const Density := "Density [Kg/m³]"
  const Poisson := "Poissons Ratio"
  const Tolerance := "Tolerance[mm]"
  const SurfaceFinish := "Surface finish[mm]"

  /** The four material properties every tool starts with. */
  const Material: seq<string> := [MaterialType, Hardness, Density, Poisson]

  /** The headings of the three end-milling passes the models predict. */
  const Milling: seq<string> :=
    ["End Milling-Rough operation", "End Milling-Semi finish operation", "End Milling-Finish operation"]

  /** `tools_info`, in its declaration order. */
  const ToolsInfo: Dict<ToolInfo> := [
    ("Boss", ToolInfo("./Saved Model/Boss.pkl",
       Material + ["Length[mm] {Range : 3 - 30}", "Diameter[mm] {Range : 0 - 18}", Tolerance, SurfaceFinish],
       Milling)),
    ("Chamfer", ToolInfo("./Saved Model/Chamfer.pkl",
       Material + ["Length[mm]{Range : 6 - 10}", "Angle {Range : 25° - 45°}", Tolerance, SurfaceFinish],
       Milling)),
    ("Fillet", ToolInfo("./Saved Model/Fillet.pkl",
       Material + ["Radius[mm]{Range : 0 - 6}", Tolerance, SurfaceFinish],
       Milling)),
    ("Hole", ToolInfo("./Saved Model/Hole.pkl",
       Material + ["Diameter[mm]{Range : 0 - 10}", "Depth[mm]{Range : 0 - 20}", Tolerance, SurfaceFinish],
       ["Drilling", "Reaming", "Finish Reaming operation", "Rough Boring", "Finish boring"])),
    ("Pocket", ToolInfo("./Saved Model/Pocket.pkl",
       Material + ["Length[mm]{Range : 3 - 80}", "Depth[mm]{Range : 0 - 20}", "Width[mm]{Range : 3 - 80}",
                   Tolerance, SurfaceFinish],
       Milling)),
    ("Step", ToolInfo("./Saved Model/Step.pkl",
       Material + ["Length[mm]{Range : 10 - 100}", "Depth[mm]{Range : 6 - 10}", "Width[mm]{Range : 10 - 100}",
                   Tolerance, SurfaceFinish],
       Milling))
  ]

  /** `tolerance_to_numeric_range`: tool, then grade label, then tolerance range string. */
  const ToleranceToNumericRange: Dict<Dict<string>> := [
    ("Boss", [("IT11 - IT13", "0.6 - 0.33"), ("IT8 - IT11", "0.014 -  0.06"), ("IT3 - IT8", "0.0020 - 0.014")]),
    ("Chamfer", [("IT11 - IT13", "0.09 - 0.22"), ("IT8 - IT11", "0.022 -  0.09"), ("IT3 - IT8", "0.0025 - 0.022")]),
    ("Fillet", [("IT11 - IT13", "0.06 - 0.18"), ("IT8 - IT11", "0.014 -  0.06"), ("IT3 - IT8", "0.0020 - 0.014")]),
    ("Hole", [("IT11 - IT13", "0.06 - 0.27"), ("IT7", "0.01 -  0.018"), ("IT12 - IT13", "0.10 - 0.27"),
              ("IT7 - IT9", "0.01 - 0.043")]),
    ("Pocket", [("IT11 - IT13", "0.075 - 0.46"), ("IT8 - IT11", "0.018 -  0.075"), ("IT3 - IT8", "0.0025 - 0.018")]),
    ("Step", [("IT11 - IT13", "0.09 - 0.54"), ("IT8 - IT11", "0.022 -  0.09"), ("IT3 - IT8", "0.0025 - 0.022")])
  ]

  /** `tolerance_to_surface_finish`: tool, then grade label, then surface-finish range string. */
  const ToleranceToSurfaceFinish: Dict<Dict<string>> := [
    ("Boss", [("IT11 - IT13", "0.01 - 0.020"), ("IT8 - IT11", "0.00125 - 0.010"), ("IT3 - IT8", "0.000325 - 0.00125")]),
    ("Chamfer", [("IT11 - IT13", "0.01 - 0.020"), ("IT8 - IT11", "0.00125 - 0.010"), ("IT3 - IT8", "0.00032 - 0.00125")]),
    ("Fillet", [("IT11 - IT13", "0.01 - 0.020"), ("IT8 - IT11", "0.00125 - 0.010"), ("IT3 - IT8", "0.00032 - 0.00125")]),
    ("Hole", [("IT11 - IT13", "0.005 - 0.08"), ("IT7", "0.0008 - 0.0016"), ("IT12 - IT13", "0.005 - 0.02"),
              ("IT7 - IT9", "0.00062 - 0.0025")]),
    ("Pocket", [("IT11 - IT13", "0.01 - 0.020"), ("IT8 - IT11", "0.00125 -  0.010"), ("IT3 - IT8", "0.000325 - 0.00125")]),
    ("Step", [("IT11 - IT13", "0.01 - 0.020"), ("IT8 - IT11", "0.00125 -  0.010"), ("IT3 - IT8", "0.00032 - 0.00125")])
  ]

  /** Hole predicts five operations, every other tool the three end-milling passes. */
  lemma {:induction false} HeadingCounts()
    ensures forall i :: 0 <= i < |ToolsInfo| ==>
              |ToolsInfo[i].1.outputHeadings| == if ToolsInfo[i].0 == "Hole" then 5 else 3
  {
  }
}
