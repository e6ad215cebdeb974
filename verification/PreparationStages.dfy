/** Preparation stages, and the printer state they and the firmware state stand for. */
module PreparationStages {
  import opened Prelude
  import opened Models

  const PREPARE_STAGES: set<int> := {
    1, 2, 3, 7, 9, 11, 13, 14, 15, 29, 40, 41, 42, 47,
    48, 49, 50, 51, 52, 54, 55, 57, 58, 59, 63, 64, 66, 77
  }

  const CALIBRATE_STAGES: set<int> := {
    8, 10, 12, 18, 19, 25, 31, 36, 37, 38, 39, 43, 44, 45,
    46, 53, 56, 60, 61, 62, 65
  }

  const PAUSED_STAGES: set<int> := {
    5, 16, 30
  }

  const FILAMENT_STAGES: set<int> := {
    4, 22, 24
  }

  const ISSUE_STAGES: set<int> := {
    6, 17, 20, 21, 23, 26, 27, 28, 32, 33, 34, 35
  }

  function StageName(stage: int): Option<string> {
    match stage
    case 1 => Some("Auto bed leveling")
    case 2 => Some("Preheating heatbed")
    case 3 => Some("Vibration compensation")
    case 4 => Some("Changing filament")
    case 5 => Some("M400 pause")
    case 6 => Some("Filament runout pause")
    case 7 => Some("Heating hotend")
    case 8 => Some("Calibrating extrusion")
    case 9 => Some("Scanning bed surface")
    case 10 => Some("Inspecting first layer")
    case 11 => Some("Identifying build plate")
    case 12 => Some("Calibrating micro lidar")
    case 13 => Some("Homing toolhead")
    case 14 => Some("Cleaning nozzle tip")
    case 15 => Some("Checking extruder temp")
    case 16 => Some("Paused by user")
    case 17 => Some("Front cover falling")
    case 18 => Some("Calibrating micro lidar")
    case 19 => Some("Calibrating extrusion flow")
    case 20 => Some("Nozzle temp malfunction")
    case 21 => Some("Heatbed temp malfunction")
    case 22 => Some("Filament unloading")
    case 23 => Some("Paused: skipped step")
    case 24 => Some("Filament loading")
    case 25 => Some("Calibrating motor noise")
    case 26 => Some("Paused: AMS lost")
    case 27 => Some("Paused: low fan speed")
    case 28 => Some("Chamber temp control error")
    case 29 => Some("Cooling chamber")
    case 30 => Some("Paused by G-code")
    case 31 => Some("Motor noise calibration")
    case 32 => Some("Paused: nozzle filament covered")
    case 33 => Some("Paused: cutter error")
    case 34 => Some("Paused: first layer error")
    case 35 => Some("Paused: nozzle clog")
    case 36 => Some("Checking absolute accuracy")
    case 37 => Some("Absolute accuracy calibration")
    case 38 => Some("Checking absolute accuracy")
    case 39 => Some("Calibrating nozzle offset")
    case 40 => Some("Bed leveling (high temp)")
    case 41 => Some("Checking quick release")
    case 42 => Some("Checking door and cover")
    case 43 => Some("Laser calibration")
    case 44 => Some("Checking platform")
    case 45 => Some("Checking camera position")
    case 46 => Some("Calibrating camera")
    case 47 => Some("Bed leveling phase 1")
    case 48 => Some("Bed leveling phase 2")
    case 49 => Some("Heating chamber")
    case 50 => Some("Cooling heatbed")
    case 51 => Some("Printing calibration lines")
    case 52 => Some("Checking material")
    case 53 => Some("Live view camera calibration")
    case 54 => Some("Waiting for heatbed temp")
    case 55 => Some("Checking material position")
    case 56 => Some("Cutting module offset calibration")
    case 57 => Some("Measuring surface")
    case 58 => Some("Thermal preconditioning")
    case 59 => Some("Homing blade holder")
    case 60 => Some("Calibrating camera offset")
    case 61 => Some("Calibrating blade holder")
    case 62 => Some("Hotend pick and place test")
    case 63 => Some("Waiting for chamber temp")
    case 64 => Some("Preparing hotend")
    case 65 => Some("Calibrating nozzle clump detection")
    case 66 => Some("Purifying chamber air")
    case 77 => Some("Preparing AMS")
    case _ => None
  }

  function CategoryOf(stage: int): Option<StageCategory> {
    if stage in PREPARE_STAGES then Some(Prepare)
    else if stage in CALIBRATE_STAGES then Some(Calibrate)
    else if stage in PAUSED_STAGES then Some(PausedStage)
    else if stage in FILAMENT_STAGES then Some(Filament)
    else if stage in ISSUE_STAGES then Some(Issue)
    else None
  }

  /** Every stage with a name has a category, and the other way round. */
  lemma NamedIffCategorized(stage: int)
    ensures StageName(stage).Some? <==> CategoryOf(stage).Some?
  {}

  datatype Derived = Derived(state: PrinterState, category: Option<StageCategory>, name: Option<string>)

  predicate IsRunning(gcodeState: string) {
    gcodeState == "RUNNING" || gcodeState == "PRINTING"
  }

  // A stage that holds a print up without stopping it.
  predicate Busy(cat: Option<StageCategory>) {
    cat == Some(Prepare) || cat == Some(Calibrate) || cat == Some(Filament)
  }

  function DetermineState(gcodeState: string, stage: int, layer: int): Derived {
    if gcodeState == "FINISH" || gcodeState == "COMPLETED" then Derived(Finished, None, None)
    else if gcodeState == "CANCELLED" || gcodeState == "FAILED" then Derived(Cancelled, None, None)
    else
      var cat, name := CategoryOf(stage), StageName(stage);
      if gcodeState == "PAUSE" then Derived(Paused, if cat.Some? then cat else Some(PausedStage), name)
      else if cat == Some(Issue) then Derived(Error, cat, name)
      else if cat == Some(PausedStage) then Derived(Paused, cat, name)
      else if Busy(cat) && (gcodeState == "PREPARE" || (IsRunning(gcodeState) && name.Some?)) then
        Derived(if layer >= 1 then Paused else Preparing, cat, name)
      else if IsRunning(gcodeState) then Derived(Printing, None, None)
      else Derived(Idle, None, None)
  }

  // The states in which a job without progress is forgotten.
  predicate AtRest(state: PrinterState) {
    state == Idle || state == Finished || state == Cancelled
  }

  predicate Over(gcodeState: string) {
    gcodeState in {"FINISH", "COMPLETED", "CANCELLED", "FAILED"}
  }

  /** Whether a print is at rest depends on the firmware state and the stage, never on the layer reached. */
  lemma RestIgnoresLayer(gcodeState: string, stage: int, layer: int, other: int)
    ensures AtRest(DetermineState(gcodeState, stage, layer).state) <==>
      AtRest(DetermineState(gcodeState, stage, other).state)
    ensures AtRest(DetermineState(gcodeState, stage, layer).state) ==>
              DetermineState(gcodeState, stage, layer) == DetermineState(gcodeState, stage, other)
  {
    hide CategoryOf, StageName;
  }

  /**
   * The table behind the chain of conditions: each state exactly under its own condition, a mid-print
   * stage showing as paused rather than preparing, and a stage shown exactly when it explains the state.
   */
  lemma {:induction false} StateTable(gcodeState: string, stage: int, layer: int)
    ensures var d, cat := DetermineState(gcodeState, stage, layer), CategoryOf(stage);
            var running := gcodeState in {"RUNNING", "PRINTING"};
            var held := cat in {Some(Prepare), Some(Calibrate), Some(Filament)} && (running || gcodeState == "PREPARE");
            && (d.state == Finished <==> gcodeState in {"FINISH", "COMPLETED"})
            && (d.state == Cancelled <==> gcodeState in {"CANCELLED", "FAILED"})
            && (d.state == Error <==> !Over(gcodeState) && gcodeState != "PAUSE" && cat == Some(Issue))
            && (d.state == Paused <==>
                  !Over(gcodeState) &&
                    (gcodeState == "PAUSE" || cat == Some(PausedStage) || (held && layer >= 1)))
            && (d.state == Preparing <==> held && layer < 1)
            && (d.state == Printing <==> running && cat == None)
            && d.state != Offline
            && (d.category.Some? <==> d.state in {Paused, Error, Preparing})
            && (d.name.Some? <==> d.category.Some? && cat.Some?)
            && (d.category.Some? ==> d.category == if cat.Some? then cat else Some(PausedStage))
            && (d.category.Some? && cat.Some? ==> d.name == StageName(stage))
  {
    NamedIffCategorized(stage);
    hide CategoryOf, StageName;
    FirmwareStatesDiffer(gcodeState);
    var cat := CategoryOf(stage);
    assert cat.Some? && !cat.value.Issue? && !cat.value.PausedStage? ==> Busy(cat);
  }

  // A firmware state is one word or another.
  lemma FirmwareStatesDiffer(g: string)
    ensures g in {"FINISH", "COMPLETED"} ==> g !in {"CANCELLED", "FAILED"}
    ensures Over(g) ==> g != "PAUSE" && g != "PREPARE" && !IsRunning(g)
    ensures g == "PAUSE" ==> g != "PREPARE" && !IsRunning(g)
  {
    assert "FINISH"[0] != "FAILED"[0] || "FINISH"[1] != "FAILED"[1];
    assert "COMPLETED"[1] != "CANCELLED"[1];
    assert |"PAUSE"| == 5 && |"PREPARE"| == 7 && |"RUNNING"| == 7 && |"PRINTING"| == 8;
    assert |"FINISH"| == |"FAILED"| == 6 && |"COMPLETED"| == |"CANCELLED"| == 9;
  }
}
