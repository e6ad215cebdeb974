/** The printer status record shared by status derivation and notifications. */
module Models {
  import opened Prelude

  datatype PrinterState = Offline | Idle | Preparing | Printing | Paused | Finished | Cancelled | Error

  datatype StageCategory = Prepare | Calibrate | PausedStage | Filament | Issue

  datatype PrintJob = PrintJob(
    fileName: string,
    progress: int,
    remainingMinutes: int,
    currentLayer: int,
    totalLayers: int,
    gcodeStartTime: string)

  datatype HmsCode = HmsCode(attr: string, code: string)

  datatype Temperatures = Temperatures(nozzle: real, nozzleTarget: real, bed: real, bedTarget: real)

  // What the human-readable error text describes.
  datatype ErrorSource = ErrorCode(attr: string) | ErrorNumber(n: int)

  datatype PrinterStatus = PrinterStatus(
    id: string,
    online: bool,
    state: PrinterState,
    stgCur: int,
    stageName: Option<string>,
    stageCategory: Option<StageCategory>,
    speedLevel: int,
    autoRefillEnabled: Option<bool>,
    autoRefillSupported: Option<bool>,
    temperatures: Temperatures,
    job: Option<PrintJob>,
    hmsCodes: seq<HmsCode>,
    printError: int,
    errorMessage: Option<ErrorSource>)
}
