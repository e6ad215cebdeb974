/** What a printer's status shows after any run of partial reports and reconnections: the last report of each field. */
module StatusFields {
  import opened Prelude
  import opened Models
  import opened PreparationStages
  import opened StatusReports

  // The last event that tells something decides.
  function LastOf<T>(events: seq<StatusEvent>, tells: StatusEvent -> Option<T>, default: T): T {
    if events == [] then default
    else
      var told := tells(events[|events| - 1]);
      if told.Some? then told.value else LastOf(events[..|events| - 1], tells, default)
  }

  function Stage(e: StatusEvent): Option<int> {
    if e.Reported? && e.p.stage.Number? then Some(e.p.stage.n) else None
  }

  // While an own change of speed is held off, reports do not overwrite it.
  function Speed(e: StatusEvent): Option<int> {
    if e.Reported? && e.p.speed.Number? && e.h.speedFree then Some(e.p.speed.n) else None
  }

  function Supported(e: StatusEvent): Option<Option<bool>> {
    if e.Reported? && e.p.backup.Some? then Some(e.p.backup) else None
  }

  // Bit 18 of cfg, else bit 10 of home_flag, unless an own change is held off.
  function Refill(e: StatusEvent): Option<Option<bool>> {
    if !e.Reported? || !e.h.refillFree then None
    else if e.p.cfg.Some? then Some(Some(e.p.cfg.value % 524288 >= 262144))
    else if e.p.homeFlag.Some? then Some(Some(e.p.homeFlag.value % 2048 >= 1024))
    else None
  }

  function Nozzle(e: StatusEvent): Option<real> {
    if e.Reported? then e.p.nozzle else None
  }

  function NozzleTarget(e: StatusEvent): Option<real> {
    if e.Reported? then e.p.nozzleTarget else None
  }

  function Bed(e: StatusEvent): Option<real> {
    if e.Reported? then e.p.bed else None
  }

  function BedTarget(e: StatusEvent): Option<real> {
    if e.Reported? then e.p.bedTarget else None
  }

  // print_error, or mc_print_error_code where there is none.
  function ErrorNumberOf(e: StatusEvent): Option<int> {
    if !e.Reported? then None
    else if e.p.printError.Number? then Some(e.p.printError.n)
    else if e.p.printError.Missing? && e.p.mcError.Number? then Some(e.p.mcError.n)
    else None
  }

  function Online(e: StatusEvent): Option<bool> {
    match e
    case Reported(_, _) => None
    case Disconnected => Some(false)
    case Connected => Some(true)
  }

  function Firmware(e: StatusEvent): Option<string> {
    if e.Reported? then e.p.gcodeState else None
  }

  lemma {:induction false} BitsRead(v: int)
    ensures BitEnabled(v, 18) <==> v % 524288 >= 262144
    ensures BitEnabled(v, 10) <==> v % 2048 >= 1024
  {
    hide Pow2;
    PowersOfTwo();
    HalfRead(v, 262144);
    HalfRead(v, 1024);
  }

  lemma Quotient(v: int, p: int, k: int, t: int)
    requires p > 0 && v == p * k + t && 0 <= t < p
    ensures v / p == k
  {
    var q := v / p;
    Products(p, q, k);
    Products(p, k, q);
    assert p * q <= v < p * q + p;
  }

  lemma {:induction false} Products(p: int, x: int, y: int)
    requires p > 0
    ensures x < y ==> p * x + p <= p * y
    decreases y - x
  {
    if x < y {
      Products(p, x, y - 1);
      assert p * y == p * (y - 1) + p;
    }
  }

  lemma HalfRead(v: int, p: int)
    requires p > 0
    ensures (v / p) % 2 != 0 <==> v % (2 * p) >= p
  {
    var q, r := v / (2 * p), v % (2 * p);
    assert v == (2 * p) * q + r == p * (2 * q) + r == p * (2 * q + 1) + (r - p);
    if r >= p {
      Quotient(v, p, 2 * q + 1, r - p);
    } else {
      Quotient(v, p, 2 * q, r);
    }
  }

  lemma PowersOfTwo()
    ensures Pow2(10) == 1024 && Pow2(18) == 262144
  {
    assert Pow2(5) == 32;
    assert Pow2(10) == 1024;
    assert Pow2(14) == 16384;
  }

  /**
   * After any run of reports and reconnections, each of these fields shows what the last event that tells it told,
   * whatever the events between left out.
   */
  lemma {:induction false} FieldsAreLastTold(s: PrinterStatus, events: seq<StatusEvent>, gcode: string)
    ensures var after := Folded(s, events, gcode);
            && after.stgCur == LastOf(events, Stage, s.stgCur)
            && after.speedLevel == LastOf(events, Speed, s.speedLevel)
            && after.autoRefillSupported == LastOf(events, Supported, s.autoRefillSupported)
            && after.autoRefillEnabled == LastOf(events, Refill, s.autoRefillEnabled)
            && after.temperatures ==
               Temperatures(LastOf(events, Nozzle, s.temperatures.nozzle),
                            LastOf(events, NozzleTarget, s.temperatures.nozzleTarget),
                            LastOf(events, Bed, s.temperatures.bed),
                            LastOf(events, BedTarget, s.temperatures.bedTarget))
            && after.printError == LastOf(events, ErrorNumberOf, s.printError)
            && after.online == LastOf(events, Online, s.online)
            && after.id == s.id
            && FoldedGcode(events, gcode) == LastOf(events, Firmware, gcode)
  {
    hide Folded, FoldedGcode, AfterEvent, GcodeAfterEvent;
    if events == [] {
      NothingFolded(s, gcode);
    } else {
      var front, last := events[..|events| - 1], events[|events| - 1];
      assert events == front + [last];
      FieldsAreLastTold(s, front, gcode);
      FoldedLast(s, front, last, gcode);
      FoldedGcodeLast(front, last, gcode);
      StepTells(Folded(s, front, gcode), last, FoldedGcode(front, gcode));
    }
  }

  lemma NothingFolded(s: PrinterStatus, gcode: string)
    ensures Folded(s, [], gcode) == s && FoldedGcode([], gcode) == gcode
  {}

  lemma {:induction false} StepTells(s: PrinterStatus, e: StatusEvent, gcode: string)
    ensures var after := AfterEvent(s, e, gcode);
            && after.stgCur == Stage(e).GetOr(s.stgCur)
            && after.speedLevel == Speed(e).GetOr(s.speedLevel)
            && after.autoRefillSupported == Supported(e).GetOr(s.autoRefillSupported)
            && after.autoRefillEnabled == Refill(e).GetOr(s.autoRefillEnabled)
            && after.temperatures ==
               Temperatures(Nozzle(e).GetOr(s.temperatures.nozzle), NozzleTarget(e).GetOr(s.temperatures.nozzleTarget),
                            Bed(e).GetOr(s.temperatures.bed), BedTarget(e).GetOr(s.temperatures.bedTarget))
            && after.printError == ErrorNumberOf(e).GetOr(s.printError)
            && after.online == Online(e).GetOr(s.online)
            && after.id == s.id
            && GcodeAfterEvent(gcode, e) == Firmware(e).GetOr(gcode)
  {
    hide DetermineState, Parsed, BitEnabled, JobAfter, KeptJob, ErrorAfter;
    if e.Reported? {
      BitsRead(e.p.cfg.GetOr(0));
      BitsRead(e.p.homeFlag.GetOr(0));
    }
  }

  // ---------------------------------------------------------------------
  // Codes, jobs and states

  // The entries that can be read, in the order they came.
  ghost predicate ReadInOrder(entries: seq<HmsEntry>, codes: seq<HmsCode>, ix: seq<nat>) {
    && |ix| == |codes|
    && (forall i | 0 <= i < |ix| ::
          ix[i] < |entries| && entries[ix[i]] == Entry(Some(codes[i].attr), Some(codes[i].code)))
    && (forall i, j | 0 <= i < j < |ix| :: ix[i] < ix[j])
    && (forall k | 0 <= k < |entries| && entries[k].Entry? && entries[k].attr.Some? && entries[k].code.Some? :: k in ix)
  }

  lemma {:induction false} ReadOneMore(entries: seq<HmsEntry>, codes: seq<HmsCode>, ix: seq<nat>, e: HmsEntry)
    requires ReadInOrder(entries, codes, ix)
    ensures if e.Entry? && e.attr.Some? && e.code.Some? then
              ReadInOrder(entries + [e], codes + [HmsCode(e.attr.value, e.code.value)], ix + [|entries|])
            else ReadInOrder(entries + [e], codes, ix)
  {
    assert forall k | 0 <= k < |entries| :: (entries + [e])[k] == entries[k];
    var longer := ix + [|entries|];
    assert longer[|ix|] == |entries|;
    assert forall k | k in ix :: k in longer;
  }

  /** The codes shown are exactly the entries with both parts, in order; any other entry is passed over. */
  lemma {:induction false} CodesAreRead(entries: seq<HmsEntry>) returns (ix: seq<nat>)
    ensures ReadInOrder(entries, Parsed(entries), ix)
  {
    hide ReadInOrder;
    if entries == [] {
      ix := [];
      NothingRead();
    } else {
      var shorter, e := entries[..|entries| - 1], entries[|entries| - 1];
      ix := CodesAreRead(shorter);
      ReadOneMore(shorter, Parsed(shorter), ix, e);
      assert shorter + [e] == entries && Parsed(shorter) + [] == Parsed(shorter);
      if e.Entry? && e.attr.Some? && e.code.Some? {
        ix := ix + [|shorter|];
      }
    }
  }

  lemma NothingRead()
    ensures ReadInOrder([], [], [])
  {}

  // The part of a job a report tells, over what was known.
  predicate Tells(p: Payload) {
    !(p.subtaskName.None? && p.percent.None? && p.remaining.None? && p.layer.None? && p.totalLayers.None? &&
      p.startTime.None?)
  }

  /**
   * One report: the codes are its own when it carries any list, else as before; the state is determined anew
   * exactly when it tells the firmware state or a stage; and the job keeps what the report leaves out, beginning
   * from nothing, unless it is forgotten at rest without progress.
   */
  lemma {:induction false} ReportShows(s: PrinterStatus, p: Payload, gcode: string, h: HoldOff)
    ensures var after := Applied(s, p, gcode, h);
            var was := s.job.GetOr(PrintJob("", 0, 0, 0, 0, ""));
            var now := PrintJob(p.subtaskName.GetOr(was.fileName), p.percent.GetOr(was.progress),
                                p.remaining.GetOr(was.remainingMinutes), p.layer.GetOr(was.currentLayer),
                                p.totalLayers.GetOr(was.totalLayers), p.startTime.GetOr(was.gcodeStartTime));
            var known := s.job.Some? || Tells(p);
            && after.hmsCodes == (if p.hms.Some? then Parsed(p.hms.value) else s.hmsCodes)
            && (if p.gcodeState.None? && p.stage.Missing? then
                  after.state == s.state && after.stageName == s.stageName && after.stageCategory == s.stageCategory
                else
                  Derived(after.state, after.stageCategory, after.stageName) ==
                  DetermineState(p.gcodeState.GetOr(gcode), if p.stage.Number? then p.stage.n else s.stgCur,
                                 if known then now.currentLayer else 0))
            && after.job ==
               (if known && !(now.progress == 0 && after.state in {Idle, Finished, Cancelled}) then Some(now) else None)
            && after.errorMessage ==
               (if after.state !in {Paused, Error} then None
                else if after.hmsCodes != [] then Some(ErrorCode(after.hmsCodes[0].attr))
                else if after.printError != 0 then Some(ErrorNumber(after.printError))
                else None)
  {
    hide DetermineState, Parsed, BitEnabled;
  }

  /** A lost connection shows the printer offline, a new one online with its state as it was. */
  lemma {:induction false} ConnectionShows(s: PrinterStatus, gcode: string)
    ensures AfterEvent(s, Disconnected, gcode) == s.(online := false, state := Offline)
    ensures AfterEvent(s, Connected, gcode) == s.(online := true)
  {}
}
