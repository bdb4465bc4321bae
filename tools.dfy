/**
  The sample app's adjustment tools: the `AdjustmentTool` record, the
  `ToolDefaults` slider constants and the initial `tools` table, together
  with the slider-to-setter mapping through which each tool drives one
  parameter of the engine.
 */
module Tools {
  import opened Config
  import opened Scheduler

  /** Slider position of a signed adjustment at rest (0..100, centred). */
  const CENTER := 50
  /** Slider position of a one-sided adjustment at rest. */
  const ZERO := 0

  /** A tool of the list. `name` and `defaultValue` are fixed; the app
      moves `progressValue` and the adapter flips `isSelected` in place. */
  class AdjustmentTool {
    const name: string
    var progressValue: int
    const defaultValue: int
    var isSelected: bool

    /** The data-class constructor; `isSelected` defaults to false. */
    constructor (name: string, progressValue: int, defaultValue: int)
      ensures this.name == name && this.progressValue == progressValue
      ensures this.defaultValue == defaultValue && !isSelected
    {
      this.name := name;
      this.progressValue := progressValue;
      this.defaultValue := defaultValue;
      isSelected := false;
    }
  }

  /** No tool object occurs twice in the list. */
  predicate Distinct(ts: seq<AdjustmentTool>) {
    forall i, j :: 0 <= i < j < |ts| ==> ts[i] != ts[j]
  }

  /** The names of the table's rows, in list order. */
  const ToolNames: seq<string> :=
    ["Brightness", "Contrast", "Exposure", "Hue", "Saturation",
     "Highlight", "Shadows", "Grain", "Sharpness", "Vignette"]

  /** The default slider position of each row, in list order. */
  const ToolDefaultValues: seq<int> :=
    [CENTER, CENTER, CENTER, CENTER, CENTER, CENTER, CENTER, ZERO, ZERO, ZERO]

  /** Builds the `tools` list: ten fresh, distinct tools in table order,
      each resting at its default and none selected. */
  method NewTools() returns (ts: seq<AdjustmentTool>)
    ensures |ts| == |ToolNames| == |ToolDefaultValues|
    ensures Distinct(ts)
    ensures forall i :: 0 <= i < |ts| ==> fresh(ts[i])
    ensures forall i :: 0 <= i < |ts| ==>
              && ts[i].name == ToolNames[i]
              && ts[i].defaultValue == ToolDefaultValues[i]
              && ts[i].progressValue == ts[i].defaultValue
              && !ts[i].isSelected
  {
    var brightness := new AdjustmentTool("Brightness", CENTER, CENTER);
    var contrast := new AdjustmentTool("Contrast", CENTER, CENTER);
    var exposure := new AdjustmentTool("Exposure", CENTER, CENTER);
    var hue := new AdjustmentTool("Hue", CENTER, CENTER);
    var saturation := new AdjustmentTool("Saturation", CENTER, CENTER);
    var highlight := new AdjustmentTool("Highlight", CENTER, CENTER);
    var shadows := new AdjustmentTool("Shadows", CENTER, CENTER);
    var grain := new AdjustmentTool("Grain", ZERO, ZERO);
    var sharpness := new AdjustmentTool("Sharpness", ZERO, ZERO);
    var vignette := new AdjustmentTool("Vignette", ZERO, ZERO);
    ts := [brightness, contrast, exposure, hue, saturation,
           highlight, shadows, grain, sharpness, vignette];
  }

  /** The table's shape: ten pairwise distinct names (they serve as list
      keys), the seven signed adjustments centred and the last three at zero. */
  lemma TableShape()
    ensures |ToolNames| == |ToolDefaultValues| == 10
    ensures forall i, j :: 0 <= i < j < |ToolNames| ==> ToolNames[i] != ToolNames[j]
    ensures forall i :: 0 <= i < 7 ==> ToolDefaultValues[i] == CENTER == 50
    ensures forall i :: 7 <= i < 10 ==> ToolDefaultValues[i] == ZERO == 0
  {
  }

  /** The setter a tool's slider calls, chosen by the tool's name; any other
      name drives nothing. */
  function ParamOf(name: string): (r: Option<Param>)
    ensures r.Some? <==> name in ToolNames
  {
    if name == "Brightness" then Some(Brightness)
    else if name == "Contrast" then Some(Contrast)
    else if name == "Exposure" then Some(Exposure)
    else if name == "Hue" then Some(Hue)
    else if name == "Saturation" then Some(Saturation)
    else if name == "Highlight" then Some(Highlight)
    else if name == "Shadows" then Some(Shadows)
    else if name == "Grain" then Some(Grain)
    else if name == "Sharpness" then Some(Sharpness)
    else if name == "Vignette" then Some(Vignette)
    else None
  }

  /** The value handed to the setter for slider position `progress`:
      signed adjustments map 0..100 onto -1..1, one-sided ones onto 0..1. */
  function SliderValue(p: Param, progress: int): (v: real)
    ensures Lower(p) >= 0.0 ==> v == progress as real / 100.0
    ensures Lower(p) < 0.0 ==> v == (progress - 50) as real / 50.0
  {
    match p
    case Grain | Sharpness | Vignette => progress as real / 100.0
    case _ => (progress - 50) as real / 50.0
  }

  /** The parameter each row drives, in list order: the order of `Param`. */
  const ToolParams: seq<Param> :=
    [Brightness, Contrast, Exposure, Hue, Saturation,
     Highlight, Shadows, Grain, Sharpness, Vignette]

  /** Row i's name selects the setter of `ToolParams[i]`. */
  lemma RowParam(i: nat)
    requires i < |ToolNames|
    ensures i < |ToolParams| && ParamOf(ToolNames[i]) == Some(ToolParams[i])
  {
  }

  /** `ToolParams` lists every parameter exactly once. */
  lemma ParamOrder()
    ensures forall i, j :: 0 <= i < j < |ToolParams| ==> ToolParams[i] != ToolParams[j]
    ensures forall p: Param :: p in ToolParams
  {
    forall p: Param
      ensures p in ToolParams
    {
      var i := match p
        case Brightness => 0 case Contrast => 1 case Exposure => 2 case Hue => 3
        case Saturation => 4 case Highlight => 5 case Shadows => 6 case Grain => 7
        case Sharpness => 8 case Vignette => 9;
      assert ToolParams[i] == p;
    }
  }

  /** Every row drives a different parameter of the engine and every
      parameter has its row: row i drives `ToolParams[i]`, which lists each
      parameter exactly once. */
  lemma ToolsCoverParams()
    ensures |ToolParams| == |ToolNames|
    ensures forall i :: 0 <= i < |ToolNames| ==> ParamOf(ToolNames[i]) == Some(ToolParams[i])
    ensures forall i, j :: 0 <= i < j < |ToolParams| ==> ToolParams[i] != ToolParams[j]
    ensures forall p: Param :: p in ToolParams
  {
    forall i | 0 <= i < |ToolNames|
      ensures ParamOf(ToolNames[i]) == Some(ToolParams[i])
    {
      RowParam(i);
    }
    ParamOrder();
  }

  /** A tool resting at its default drives its parameter to the engine's
      neutral value, the value `reset` restores. */
  lemma DefaultsAreNeutral()
    ensures forall i :: 0 <= i < |ToolNames| ==>
              ParamOf(ToolNames[i]).Some? &&
              SliderValue(ParamOf(ToolNames[i]).value, ToolDefaultValues[i])
                == Get(Zero, ParamOf(ToolNames[i]).value) == 0.0
  {
    forall i | 0 <= i < |ToolNames|
      ensures ParamOf(ToolNames[i]) == Some(ToolParams[i])
    {
      RowParam(i);
    }
  }

  /** Every slider position 0..100 gives a value the setter keeps as is:
      `coerceIn` never clamps a slider value. */
  lemma SliderInRange(p: Param, progress: int)
    requires 0 <= progress <= 100
    ensures Lower(p) <= SliderValue(p, progress) <= Upper(p)
    ensures CoerceIn(SliderValue(p, progress), Lower(p), Upper(p)) == SliderValue(p, progress)
  {
  }
}
