/** Applying partial print reports to a printer's status. */
module StatusReports {
  import opened Prelude
  import opened Models
  import opened PreparationStages

  // A numeric field: absent, present but not a number, or read.
  datatype Field = Missing | Malformed | Number(n: int)

  datatype HmsEntry = NotAnObject | Entry(attr: Option<string>, code: Option<string>)

  // The print fields the status reads. gcodeState, printError and mcError are Missing when null; hms is
  // Some([]) when present but not a list; cfg and homeFlag are None unless they read as an integer.
  datatype Payload = Payload(
    gcodeState: Option<string>,
    stage: Field,
    speed: Field,
    backup: Option<bool>,
    cfg: Option<int>,
    homeFlag: Option<int>,
    nozzle: Option<real>,
    nozzleTarget: Option<real>,
    bed: Option<real>,
    bedTarget: Option<real>,
    subtaskName: Option<string>,
    percent: Option<int>,
    remaining: Option<int>,
    layer: Option<int>,
    totalLayers: Option<int>,
    startTime: Option<string>,
    hms: Option<seq<HmsEntry>>,
    printError: Field,
    mcError: Field)

  const NOTHING := Payload(None, Missing, Missing, None, None, None, None, None, None, None,
                           None, None, None, None, None, None, None, Missing, Missing)

  // Whether the optimistic-update hold-offs have run out.
  datatype HoldOff = HoldOff(speedFree: bool, refillFree: bool)

  const NO_JOB := PrintJob("", 0, 0, 0, 0, "")

  function Pow2(n: nat): (p: nat)
    ensures p > 0
  {
    if n == 0 then 1 else 2 * Pow2(n - 1)
  }

  // Bit of an integer in two's complement.
  predicate BitEnabled(value: int, bit: nat) {
    (value / Pow2(bit)) % 2 != 0
  }

  function NumberOr(f: Field, default: int): int {
    if f.Number? then f.n else default
  }

  function Parsed(entries: seq<HmsEntry>): seq<HmsCode>
    decreases entries
  {
    if entries == [] then []
    else
      var e := entries[|entries| - 1];
      Parsed(entries[..|entries| - 1]) +
      if e.Entry? && e.attr.Some? && e.code.Some? then [HmsCode(e.attr.value, e.code.value)] else []
  }

  predicate HasJobInfo(p: Payload) {
    p.subtaskName.Some? || p.percent.Some? || p.remaining.Some? || p.layer.Some? || p.totalLayers.Some? ||
      p.startTime.Some?
  }

  function JobAfter(job: Option<PrintJob>, p: Payload): Option<PrintJob> {
    if !HasJobInfo(p) then job
    else
      var j := job.GetOr(NO_JOB);
      Some(PrintJob(p.subtaskName.GetOr(j.fileName), p.percent.GetOr(j.progress), p.remaining.GetOr(j.remainingMinutes),
                    p.layer.GetOr(j.currentLayer), p.totalLayers.GetOr(j.totalLayers),
                      p.startTime.GetOr(j.gcodeStartTime)))
  }

  function RefillAfter(current: Option<bool>, p: Payload, free: bool): Option<bool> {
    if !free then current
    else if p.cfg.Some? then Some(BitEnabled(p.cfg.value, 18))
    else if p.homeFlag.Some? then Some(BitEnabled(p.homeFlag.value, 10))
    else current
  }

  function TemperaturesAfter(t: Temperatures, p: Payload): Temperatures {
    Temperatures(p.nozzle.GetOr(t.nozzle), p.nozzleTarget.GetOr(t.nozzleTarget), p.bed.GetOr(t.bed),
                 p.bedTarget.GetOr(t.bedTarget))
  }

  predicate Redetermines(p: Payload) {
    p.gcodeState.Some? || !p.stage.Missing?
  }

  function ShownState(s: PrinterStatus, p: Payload, gcode: string): Derived {
    if Redetermines(p) then
      var job := JobAfter(s.job, p);
      DetermineState(gcode, NumberOr(p.stage, s.stgCur), if job.Some? then job.value.currentLayer else 0)
    else Derived(s.state, s.stageCategory, s.stageName)
  }

  function KeptJob(job: Option<PrintJob>, state: PrinterState): Option<PrintJob> {
    if AtRest(state) && job.Some? && job.value.progress == 0 then None else job
  }

  // The error present, if there is any: the first code reported, else a non-zero error number.
  function CurrentError(codes: seq<HmsCode>, error: int): Option<ErrorSource> {
    if codes != [] then Some(ErrorCode(codes[0].attr))
    else if error != 0 then Some(ErrorNumber(error))
    else None
  }

  function ErrorAfter(codes: seq<HmsCode>, error: int, state: PrinterState): Option<ErrorSource> {
    if state == Paused || state == Error then CurrentError(codes, error) else None
  }

  function GcodeAfter(gcode: string, p: Payload): string {
    p.gcodeState.GetOr(gcode)
  }

  /** The status after a payload, for the firmware state accumulated so far. */
  function Applied(s: PrinterStatus, p: Payload, gcode: string, h: HoldOff): PrinterStatus {
    var shown := ShownState(s, p, GcodeAfter(gcode, p));
    var codes := if p.hms.Some? then Parsed(p.hms.value) else s.hmsCodes;
    var error := NumberOr(if p.printError.Missing? then p.mcError else p.printError, s.printError);
    s.(stgCur := NumberOr(p.stage, s.stgCur),
       speedLevel := if h.speedFree then NumberOr(p.speed, s.speedLevel) else s.speedLevel,
       autoRefillSupported := if p.backup.Some? then p.backup else s.autoRefillSupported,
       autoRefillEnabled := RefillAfter(s.autoRefillEnabled, p, h.refillFree),
       temperatures := TemperaturesAfter(s.temperatures, p),
       hmsCodes := codes,
       printError := error,
       state := shown.state,
       stageCategory := shown.category,
       stageName := shown.name,
       errorMessage := ErrorAfter(codes, error, shown.state),
       job := KeptJob(JobAfter(s.job, p), shown.state))
  }

  /**
   * Delivering a report again, at once, changes neither the status nor the firmware state: also when the
   * first delivery dropped the job and the second builds it anew, since a state that drops the job does
   * not depend on the layer.
   */
  lemma ReplayIsHarmless(s: PrinterStatus, p: Payload, gcode: string, h: HoldOff)
    ensures var once, g := Applied(s, p, gcode, h), GcodeAfter(gcode, p);
            Applied(once, p, g, h) == once && GcodeAfter(g, p) == g
  {
    var once, g := Applied(s, p, gcode, h), GcodeAfter(gcode, p);
    if Redetermines(p) {
      var before, again := JobAfter(s.job, p), JobAfter(once.job, p);
      var layer := if before.Some? then before.value.currentLayer else 0;
      var layer' := if again.Some? then again.value.currentLayer else 0;
      RestIgnoresLayer(g, NumberOr(p.stage, s.stgCur), layer, layer');
    }
    hide DetermineState, Parsed, BitEnabled;
  }

  // What every report leaves behind.
  predicate Coherent(s: PrinterStatus) {
    && (s.errorMessage == ErrorAfter(s.hmsCodes, s.printError, s.state))
    && (s.job == KeptJob(s.job, s.state))
    && (s.state == Offline || (s.stageCategory.Some? <==> s.state in {Paused, Error, Preparing}))
    && (s.stageName.Some? ==> s.stageCategory.Some?)
  }

  // Between reports the connection may be lost or closed, and made again.
  datatype StatusEvent = Reported(p: Payload, h: HoldOff) | Disconnected | Connected

  function Lost(s: PrinterStatus): PrinterStatus {
    s.(online := false, state := Offline)
  }

  // A new connection leaves the state to the next report.
  function Back(s: PrinterStatus): PrinterStatus {
    s.(online := true)
  }

  function AfterEvent(s: PrinterStatus, e: StatusEvent, gcode: string): PrinterStatus {
    match e
    case Reported(p, h) => Applied(s, p, gcode, h)
    case Disconnected => Lost(s)
    case Connected => Back(s)
  }

  function GcodeAfterEvent(gcode: string, e: StatusEvent): string {
    if e.Reported? then GcodeAfter(gcode, e.p) else gcode
  }

  function Folded(s: PrinterStatus, events: seq<StatusEvent>, gcode: string): PrinterStatus
    decreases events
  {
    if events == [] then s
    else Folded(AfterEvent(s, events[0], gcode), events[1..], GcodeAfterEvent(gcode, events[0]))
  }

  function FoldedGcode(events: seq<StatusEvent>, gcode: string): string
    decreases events
  {
    if events == [] then gcode else FoldedGcode(events[1..], GcodeAfterEvent(gcode, events[0]))
  }

  // What holds of a status even while the printer is offline: its stage was explained when it was set.
  predicate StageOk(s: PrinterStatus) {
    && (s.state == Offline || (s.stageCategory.Some? <==> s.state in {Paused, Error, Preparing}))
    && (s.stageName.Some? ==> s.stageCategory.Some?)
  }

  lemma {:induction false} AppliedIsCoherent(s: PrinterStatus, p: Payload, gcode: string, h: HoldOff)
    requires StageOk(s)
    ensures Coherent(Applied(s, p, gcode, h))
  {
    if Redetermines(p) {
      var job := JobAfter(s.job, p);
      StateTable(GcodeAfter(gcode, p), NumberOr(p.stage, s.stgCur), if job.Some? then job.value.currentLayer else 0);
    }
    hide DetermineState, Parsed, BitEnabled;
  }

  lemma {:induction false} StageStaysOk(s: PrinterStatus, events: seq<StatusEvent>, gcode: string)
    requires StageOk(s)
    ensures StageOk(Folded(s, events, gcode))
    decreases events
  {
    hide Applied;
    if events != [] {
      var e := events[0];
      if e.Reported? {
        AppliedIsCoherent(s, e.p, gcode, e.h);
      }
      StageStaysOk(AfterEvent(s, e, gcode), events[1..], GcodeAfterEvent(gcode, e));
    }
  }

  lemma {:induction false} FoldedLast(s: PrinterStatus, events: seq<StatusEvent>, last: StatusEvent, gcode: string)
    ensures Folded(s, events + [last], gcode) == AfterEvent(Folded(s, events, gcode), last, FoldedGcode(events, gcode))
    decreases events
  {
    hide AfterEvent, GcodeAfterEvent;
    if events == [] {
      assert events + [last] == [last];
    } else {
      assert (events + [last])[1..] == events[1..] + [last];
      FoldedLast(AfterEvent(s, events[0], gcode), events[1..], last, GcodeAfterEvent(gcode, events[0]));
    }
  }

  lemma {:induction false} FoldedGcodeLast(events: seq<StatusEvent>, last: StatusEvent, gcode: string)
    ensures FoldedGcode(events + [last], gcode) == GcodeAfterEvent(FoldedGcode(events, gcode), last)
    decreases events
  {
    hide GcodeAfterEvent;
    if events == [] {
      assert events + [last] == [last];
    } else {
      assert (events + [last])[1..] == events[1..] + [last];
      FoldedGcodeLast(events[1..], last, GcodeAfterEvent(gcode, events[0]));
    }
  }

  // A status no report has reached yet.
  predicate Unreported(s: PrinterStatus) {
    && s.state == Offline && s.job == None && s.errorMessage == None
    && s.stageCategory == None && s.stageName == None
  }

  /**
   * Over any run of reports, lost and new connections, from a new status on: right after every report an error
   * is explained exactly while the printer is paused or stopped with one present, as last reported; a job
   * without progress is not shown at rest; and a stage is shown exactly while it explains the state. So it
   * is before the first report.
   */
  lemma {:induction false} StatusIsCoherent(s: PrinterStatus, events: seq<StatusEvent>, p: Payload, h: HoldOff,
                                            gcode: string)
    requires Unreported(s)
    ensures Coherent(s)
    ensures Coherent(Folded(s, events + [Reported(p, h)], gcode))
  {
    hide Applied, Coherent;
    assert Coherent(s) by {
      UnreportedIsCoherent(s);
    }
    StageStaysOk(s, events, gcode);
    FoldedLast(s, events, Reported(p, h), gcode);
    AppliedIsCoherent(Folded(s, events, gcode), p, FoldedGcode(events, gcode), h);
  }

  lemma UnreportedIsCoherent(s: PrinterStatus)
    requires Unreported(s)
    ensures Coherent(s) && StageOk(s)
  {}

  /**
   * A lost connection breaks this until the next report if and only if an error was being explained: the
   * printer was paused or stopped while a code or an error number was present. The explanation stays
   * although the printer now shows as offline.
   */
  lemma DisconnectIsCoherentIff(s: PrinterStatus)
    requires Coherent(s)
    ensures Coherent(Lost(s)) <==> s.errorMessage == None
    ensures Coherent(Lost(s)) <==> !(s.state in {Paused, Error} && (s.hmsCodes != [] || s.printError != 0))
  {}

  /** A pause without any error explains nothing, so losing the connection then breaks nothing. */
  lemma {:induction false} PlainPauseThenDisconnect(s: PrinterStatus, h: HoldOff)
    requires Unreported(s) && s.hmsCodes == [] && s.printError == 0
    ensures var paused := Applied(s, NOTHING.(gcodeState := Some("PAUSE")), "IDLE", h);
            paused.state == Paused && paused.errorMessage == None && Coherent(paused) && Coherent(Lost(paused))
  {
    var p := NOTHING.(gcodeState := Some("PAUSE"));
    UnreportedIsCoherent(s);
    FirmwareStatesDiffer("PAUSE");
    assert |"PAUSE"| == 5 && |"FINISH"| == |"FAILED"| == 6 && |"COMPLETED"| == |"CANCELLED"| == 9;
    AppliedIsCoherent(s, p, "IDLE", h);
    hide CategoryOf, StageName;
  }

  /** A report without any of the fields changes nothing once the status is coherent. */
  lemma SilentReportChangesNothing(s: PrinterStatus, gcode: string, h: HoldOff)
    requires Coherent(s)
    ensures Applied(s, NOTHING, gcode, h) == s && GcodeAfter(gcode, NOTHING) == gcode
  {
    hide DetermineState;
  }

  // ---------------------------------------------------------------------

  /** The status object; a report updates it field by field. */
  class LiveStatus {
    var status: PrinterStatus

    constructor (initial: PrinterStatus)
      ensures status == initial
    {
      status := initial;
    }

    // on_disconnect and stop.
    method Disconnect()
      modifies this
      ensures status == Lost(old(status))
    {
      status := status.(online := false);
      status := status.(state := Offline);
    }

    // on_connect.
    method Connect()
      modifies this
      ensures status == Back(old(status))
    {
      status := status.(online := true);
    }

    method ReadHms(entries: seq<HmsEntry>) returns (codes: seq<HmsCode>)
      ensures codes == Parsed(entries)
    {
      codes := [];
      for i := 0 to |entries|
        invariant codes == Parsed(entries[..i])
      {
        var e := entries[i];
        assert entries[..i + 1][..i] == entries[..i];
        if e.Entry? && e.attr.Some? && e.code.Some? {
          codes := codes + [HmsCode(e.attr.value, e.code.value)];
        }
      }
      assert entries[..|entries|] == entries;
    }

    method ApplyJob(p: Payload)
      modifies this
      ensures status == old(status).(job := JobAfter(old(status).job, p))
    {
      if HasJobInfo(p) {
        var job := status.job.GetOr(NO_JOB);
        if p.subtaskName.Some? { job := job.(fileName := p.subtaskName.value); }
        if p.percent.Some? { job := job.(progress := p.percent.value); }
        if p.remaining.Some? { job := job.(remainingMinutes := p.remaining.value); }
        if p.layer.Some? { job := job.(currentLayer := p.layer.value); }
        if p.totalLayers.Some? { job := job.(totalLayers := p.totalLayers.value); }
        if p.startTime.Some? { job := job.(gcodeStartTime := p.startTime.value); }
        status := status.(job := Some(job));
      }
    }

    method ApplyTemperatures(p: Payload)
      modifies this
      ensures status == old(status).(temperatures := TemperaturesAfter(old(status).temperatures, p))
    {
      var t := status.temperatures;
      if p.nozzle.Some? { t := t.(nozzle := p.nozzle.value); }
      if p.nozzleTarget.Some? { t := t.(nozzleTarget := p.nozzleTarget.value); }
      if p.bed.Some? { t := t.(bed := p.bed.value); }
      if p.bedTarget.Some? { t := t.(bedTarget := p.bedTarget.value); }
      status := status.(temperatures := t);
    }

    method ApplyRefill(p: Payload, free: bool)
      modifies this
      ensures status == old(status).(autoRefillEnabled := RefillAfter(old(status).autoRefillEnabled, p, free))
    {
      hide BitEnabled;
      if free {
        var refill := None;
        if p.cfg.Some? { refill := Some(BitEnabled(p.cfg.value, 18)); }
        if refill.None? && p.homeFlag.Some? { refill := Some(BitEnabled(p.homeFlag.value, 10)); }
        if refill.Some? { status := status.(autoRefillEnabled := refill); }
      }
    }

    method ApplyErrors(p: Payload)
      modifies this
      ensures status == old(status).(
        hmsCodes := if p.hms.Some? then Parsed(p.hms.value) else old(status).hmsCodes,
        printError := NumberOr(if p.printError.Missing? then p.mcError else p.printError, old(status).printError))
    {
      hide Parsed;
      if p.hms.Some? {
        var codes := ReadHms(p.hms.value);
        status := status.(hmsCodes := codes);
      }
      var error := if p.printError.Missing? then p.mcError else p.printError;
      if error.Number? {
        status := status.(printError := error.n);
      }
    }

    // The tail of the update: state and stage, then the error text, then the job at rest.
    method Derive(redetermine: bool, gcode: string)
      modifies this
      ensures var s := old(status);
              var layer := if s.job.Some? then s.job.value.currentLayer else 0;
              var shown := if redetermine then DetermineState(gcode, s.stgCur, layer)
                else Derived(s.state, s.stageCategory, s.stageName);
              status == s.(state := shown.state, stageCategory := shown.category, stageName := shown.name,
                           errorMessage := ErrorAfter(s.hmsCodes, s.printError, shown.state),
                             job := KeptJob(s.job, shown.state))
    {
      hide DetermineState;
      if redetermine {
        var layer := if status.job.Some? then status.job.value.currentLayer else 0;
        var shown := DetermineState(gcode, status.stgCur, layer);
        status := status.(state := shown.state, stageCategory := shown.category, stageName := shown.name);
      }
      if status.state == Paused || status.state == Error {
        status := status.(errorMessage := CurrentError(status.hmsCodes, status.printError));
      } else {
        status := status.(errorMessage := None);
      }
      if AtRest(status.state) && status.job.Some? && status.job.value.progress == 0 {
        status := status.(job := None);
      }
    }

    method ApplySettings(p: Payload, h: HoldOff)
      modifies this
      ensures status == old(status).(
        stgCur := NumberOr(p.stage, old(status).stgCur),
        speedLevel := if h.speedFree then NumberOr(p.speed, old(status).speedLevel) else old(status).speedLevel,
        autoRefillSupported := if p.backup.Some? then p.backup else old(status).autoRefillSupported)
    {
      if p.stage.Number? {
        status := status.(stgCur := p.stage.n);
      }
      if p.speed.Number? && h.speedFree {
        status := status.(speedLevel := p.speed.n);
      }
      if p.backup.Some? {
        status := status.(autoRefillSupported := p.backup);
      }
    }

    method Apply(p: Payload, gcodeState: string, h: HoldOff) returns (gcode: string)
      modifies this
      ensures status == Applied(old(status), p, gcodeState, h)
      ensures gcode == GcodeAfter(gcodeState, p)
    {
      hide DetermineState, Parsed, RefillAfter, TemperaturesAfter, JobAfter, KeptJob, ErrorAfter, NumberOr,
        Redetermines;
      gcode := gcodeState;
      if p.gcodeState.Some? {
        gcode := p.gcodeState.value;
      }
      ApplySettings(p, h);
      ApplyRefill(p, h.refillFree);
      ApplyTemperatures(p);
      ApplyJob(p);
      ApplyErrors(p);
      Derive(Redetermines(p), gcode);
    }
  }
}
