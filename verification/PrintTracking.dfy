/** Live print snapshots: partial reports folded per job, and the registry of 3MF sources. */
module PrintTracking {
  import opened Prelude
  import opened Text
  import opened Reports
  import DropOldest

  const TERMINAL_STATES: set<string> := {"FINISH", "FAILED", "FAIL", "CANCELLED", "CANCELED"}
  const ACTIVE_STATES: set<string> := {"RUNNING", "PAUSE", "PAUSED", "PREPARE", "PREPARING", "SLICING"}

  datatype SourceKind = Registered | CloudHttp | Http | PrinterFtps

  datatype PrintSource = PrintSource(
    jobKey: string,
    kind: SourceKind,
    filename: string,
    data: Option<Bytes>,
    url: string,
    plateId: int,
    amsMapping: Option<seq<int>>)

  datatype Reason = NothingReported | NotRetrievable | CredentialsUnavailable

  datatype SourceStatus = SourceStatus(
    available: bool,
    kind: Option<SourceKind>,
    filename: Option<string>,
    url: Option<string>,
    reason: Option<Reason>)

  // What subscribers see of a job; a snapshot is a view with its sequence number.
  datatype View = View(
    jobKey: Option<string>,
    taskId: Option<string>,
    subtaskId: Option<string>,
    jobName: Option<string>,
    state: string,
    layer: int,
    totalLayers: int,
    gcodeEntry: Option<string>,
    amsMapping: seq<int>,
    activeTray: Option<int>,
    usageReference: Option<Report>,
    source: SourceStatus)

  datatype Snapshot = Snapshot(sequence: nat, view: View)

  // Everything the broker accumulates, apart from the sequence counter and the subscribers.
  datatype Core = Core(
    raw: Report,
    sources: map<string, PrintSource>,
    usageReferences: map<string, Report>,
    pending: Option<PrintSource>,
    activeKey: Option<string>,
    view: View,
    fileAvailable: bool)

  const EMPTY_VIEW := View(None, None, None, None, "IDLE", 0, 0, None, [], None, None,
                           SourceStatus(false, None, None, None, Some(NothingReported)))

  function Initial(fileAvailable: bool): Core {
    Core(map[], map[], map[], None, None, EMPTY_VIEW, fileAvailable)
  }

  // ---------------------------------------------------------------------
  // Names and identities

  // The suffix test runs on the lowered name, and at most one suffix is dropped.
  function NameIdentity(name: string): string {
    var lowered := Lower(Strip(name));
    if EndsWith(lowered, ".3mf") then lowered[..|lowered| - 4]
    else if EndsWith(lowered, ".gcode") then lowered[..|lowered| - 6]
    else lowered
  }

  function NameOf(r: Report): string {
    TextOf(Or(Get(r, Key.SubtaskName), Get(r, Key.GcodeFile)))
  }

  function StateOf(r: Report): string {
    Upper(TextOf(Get(r, Key.GcodeState)))
  }

  predicate Meaningful(id: string) {
    id != "" && id != "0"
  }

  predicate Changed(raw: Report, report: Report, key: Key) {
    var was, now := TextOf(Get(raw, key)), TextOf(Get(report, key));
    Meaningful(now) && Meaningful(was) && now != was
  }

  predicate Confirmed(raw: Report, report: Report, key: Key) {
    var now := TextOf(Get(report, key));
    Meaningful(now) && now == TextOf(Get(raw, key))
  }

  predicate IdentityChanged(raw: Report, report: Report) {
    Changed(raw, report, Key.TaskId) || Changed(raw, report, Key.SubtaskId) || Changed(raw, report, Key.GcodeStartTime)
  }

  predicate IdentityStable(raw: Report, report: Report) {
    Confirmed(raw, report, Key.TaskId) || Confirmed(raw, report, Key.SubtaskId)
  }

  predicate NameChanged(raw: Report, report: Report) {
    && NameOf(report) != "" && NameOf(raw) != ""
    && !IdentityStable(raw, report)
    && NameIdentity(NameOf(report)) != NameIdentity(NameOf(raw))
  }

  predicate Starts(report: Report) {
    StateOf(report) in ACTIVE_STATES || Get(report, Key.Command) == Str("project_file")
  }

  predicate Boundary(raw: Report, report: Report) {
    || (StateOf(report) in ACTIVE_STATES && StateOf(raw) in TERMINAL_STATES)
    || (NameChanged(raw, report) && Starts(report))
    || (IdentityChanged(raw, report) && Starts(report))
  }

  function ReportedUrl(r: Report): string {
    var url, projectFile := TextOf(Get(r, Key.Url)), TextOf(Get(r, Key.ProjectFile));
    var fileUrl := TextOf(Get(r, Key.FileUrl));
    var gcodeFile := TextOf(Get(r, Key.GcodeFile));
    if url != "" then url
    else if projectFile != "" then projectFile
    else if fileUrl != "" then fileUrl
    else if !EndsWith(Lower(gcodeFile), ".3mf") then ""
    else if Contains(gcodeFile, "://") then gcodeFile
    else if StartsWith(gcodeFile, "/sdcard/") then "file://" + gcodeFile
    else if StartsWith(gcodeFile, "/cache/") then "file:///sdcard" + gcodeFile
    else if PathName(gcodeFile) != "" then "file:///sdcard/cache/" + PathName(gcodeFile)
    else ""
  }

  function TrayNumber(v: Value): Option<int> {
    var n := IntegerOf(v, -1);
    if n < 0 then None else Some(n)
  }

  function TrayShown(r: Report, previous: Option<int>): Option<int> {
    var ams := Get(r, Key.Ams);
    if ams.Obj? && Key.TrayNow in ams.fields then TrayNumber(ams.fields[Key.TrayNow])
    else if Key.ActiveTray in r then TrayNumber(r[Key.ActiveTray])
    else previous
  }

  function NonEmpty(s: string): Option<string> {
    if s == "" then None else Some(s)
  }

  function PlateEntry(plateId: int): string {
    "Metadata/plate_" + Decimal(plateId) + ".gcode"
  }

  // ---------------------------------------------------------------------
  // Building a snapshot

  function MeaningfulIds(raw: Report): seq<string> {
    var task, subtask := TextOf(Get(raw, Key.TaskId)), TextOf(Get(raw, Key.SubtaskId));
    var started := TextOf(Get(raw, Key.GcodeStartTime));
    (if Meaningful(task) then [task] else []) +
    (if Meaningful(subtask) then [subtask] else []) +
    (if Meaningful(started) then [started] else [])
  }

  function Joined(parts: seq<string>): string {
    if parts == [] then ""
    else if |parts| == 1 then parts[0]
    else parts[0] + ":" + Joined(parts[1..])
  }

  // The job key, and the key that becomes active.
  function DeriveKey(c: Core): (Option<string>, Option<string>) {
    var ids, name := MeaningfulIds(c.raw), NameOf(c.raw);
    if c.activeKey.Some? then (c.activeKey, c.activeKey)
    else if ids != [] then
      var key := "printer:" + Joined(ids + if name != "" then [name] else []);
      (Some(key), Some(key))
    else if c.pending.Some? then (Some(c.pending.value.jobKey), None)
    else if name != "" then
      var key := if c.view.jobKey.GetOr("") != "" then c.view.jobKey.value else "printer:name:" + name;
      (Some(key), Some(key))
    else (None, None)
  }

  function LookupKey<T>(m: map<string, T>, key: Option<string>): Option<T> {
    var k := key.GetOr("");
    if k in m then Some(m[k]) else None
  }

  // A pending source is used up once its own job is seen running.
  function PendingAfter(c: Core, found: Option<PrintSource>, phase: string): Option<PrintSource> {
    if found.Some? && c.pending.Some? && found.value.jobKey == c.pending.value.jobKey && phase in ACTIVE_STATES
    then None else c.pending
  }

  // The pending source, registered again under the key the firmware gave the job.
  function Adopted(pending: PrintSource, key: string): PrintSource {
    PrintSource(key, pending.kind, pending.filename, pending.data, "", pending.plateId,
                Some(pending.amsMapping.GetOr([])))
  }

  function FromUrl(key: string, url: string): PrintSource {
    var scheme := Lower(Before(url, ':'));
    PrintSource(key, if scheme == "http" || scheme == "https" then Http else PrinterFtps, PathName(url), None, url, 1,
                None)
  }

  // The source shown for the job, the registry, and the pending source left over.
  function Settle(c: Core, key: Option<string>): (Option<PrintSource>, map<string, PrintSource>, Option<PrintSource>) {
    var phase := Phase(c.raw);
    var found := LookupKey(c.sources, key);
    var pending := PendingAfter(c, found, phase);
    var k, url := key.GetOr(""), ReportedUrl(c.raw);
    if found.Some? then (found, c.sources, pending)
    else if pending.Some? && phase !in TERMINAL_STATES then
      if k != "" && k != pending.value.jobKey then
        var adopted := Adopted(pending.value, k);
        (Some(adopted), c.sources[k := adopted], None)
      else (pending, c.sources, pending)
    else if k != "" && url != "" then
      (Some(FromUrl(k, url)), c.sources[k := FromUrl(k, url)], pending)
    else (None, c.sources, pending)
  }

  function Phase(raw: Report): string {
    if StateOf(raw) == "" then "IDLE" else StateOf(raw)
  }

  function StatusOf(source: Option<PrintSource>, raw: Report, fileAvailable: bool): SourceStatus {
    if source.None? then
      SourceStatus(false, None, NonEmpty(NameOf(raw)), NonEmpty(ReportedUrl(raw)), Some(NotRetrievable))
    else
      var src := source.value;
      if src.kind == PrinterFtps && !fileAvailable then
        SourceStatus(false, Some(src.kind), Some(src.filename), NonEmpty(src.url), Some(CredentialsUnavailable))
      else
        SourceStatus(src.data.Some? || src.url != "", Some(src.kind), Some(src.filename), NonEmpty(src.url), None)
  }

  function Mapping(raw: Report, previous: seq<int>, source: Option<PrintSource>): seq<int> {
    var reported := Get(raw, Key.AmsMapping);
    var mapping := if reported.List? then Integers(reported.items) else previous;
    if source.Some? && mapping == [] && source.value.amsMapping.Some? then source.value.amsMapping.value else mapping
  }

  function Integers(items: seq<Value>): seq<int> {
    seq(|items|, i requires 0 <= i < |items| => IntegerOf(items[i], -1))
  }

  function ViewOf(raw: Report, references: map<string, Report>, previous: View, fileAvailable: bool,
                  key: Option<string>, source: Option<PrintSource>): View {
    var name, usage := NameOf(raw), LookupKey(references, key);
    var title := if usage.Some? then TextOf(Get(usage.value, Key.Title)) else "";
    var entry := TextOf(Or(Get(raw, Key.Param), Get(raw, Key.GcodeEntry)));
    View(
      key,
      NonEmpty(TextOf(Get(raw, Key.TaskId))),
      NonEmpty(TextOf(Get(raw, Key.SubtaskId))),
      if name != "" then Some(name) else if title != "" then Some(title)
      else if source.Some? then Some(source.value.filename) else None,
      Phase(raw),
      IntegerOf(Get(raw, Key.LayerNum), 0),
      IntegerOf(Get(raw, Key.TotalLayerNum), 0),
      if entry != "" then Some(entry) else if source.Some? then Some(PlateEntry(source.value.plateId)) else None,
      Mapping(raw, previous.amsMapping, source),
      TrayShown(raw, previous.activeTray),
      if usage.Some? && usage.value != map[] then usage else None,
      StatusOf(source, raw, fileAvailable))
  }

  function Rebuild(c: Core, preferred: Option<string>): Core {
    var (derived, active) := if preferred.GetOr("") != "" then (preferred, c.activeKey) else DeriveKey(c);
    var (source, sources, pending) := Settle(c, derived);
    c.(activeKey := active, sources := sources, pending := pending, 
       view := ViewOf(c.raw, c.usageReferences, c.view, c.fileAvailable, derived, source))
  }

  // ---------------------------------------------------------------------
  // Inputs

  datatype CloudUrl = CloudUrl(text: string, scheme: string, fileName: string)

  // digest stands for the first sixteen hex digits of the blob's SHA-256.
  datatype Submission = Submission(
    blob: Option<Bytes>,
    digest: string,
    filename: string,
    plateId: int,
    amsMapping: Option<seq<int>>)

  datatype Input =
    | Submit(job: Submission)
    | Firmware(report: Value)
    | Enrich(jobKey: string, usage: Report, url: Option<CloudUrl>)
    | FileAccess(available: bool)

  function GatewayKey(job: Submission): string {
    "gateway:" + job.digest + ":" + Decimal(job.plateId) + ":" + job.filename
  }

  function GatewaySource(job: Submission): PrintSource {
    PrintSource(GatewayKey(job), Registered, job.filename, job.blob, "", job.plateId, Some(job.amsMapping.GetOr([])))
  }

  function Numbers(ns: seq<int>): Value {
    List(seq(|ns|, i requires 0 <= i < |ns| => Int(ns[i])))
  }

  function AfterSubmit(c: Core, job: Submission): Core {
    var source := GatewaySource(job);
    var raw := c.raw[Key.SubtaskName := Str(job.filename)]
                    [Key.Param := Str(PlateEntry(job.plateId))]
                    [Key.AmsMapping := Numbers(job.amsMapping.GetOr([]))];
    Rebuild(
      c.(raw := raw, sources := map[source.jobKey := source], usageReferences := map[],
         pending := Some(source), activeKey := Some(source.jobKey)),
      Some(source.jobKey))
  }

  // What a job boundary leaves: the registry survives only for the pending gateway job it announces.
  function Reset(c: Core, report: Report): Core {
    var pendingName := if c.pending.Some? then c.pending.value.filename else "";
    var wiped := c.(raw := map[], view := EMPTY_VIEW);
    if pendingName == "" || (NameOf(report) != "" && NameOf(report) != pendingName)
    then wiped.(activeKey := None, sources := map[], usageReferences := map[])
    else wiped
  }

  function AfterReport(c: Core, report: Report): Core {
    var base := if Boundary(c.raw, report) then Reset(c, report) else c;
    Rebuild(base.(raw := Merge(base.raw, report)), None)
  }

  function EnrichedSources(c: Core, jobKey: string, usage: Report, url: Option<CloudUrl>): map<string, PrintSource> {
    var existing := LookupKey(c.sources, Some(jobKey));
    var weak := existing.None? || (existing.value.kind == PrinterFtps && !c.fileAvailable);
    if url.Some? && url.value.text != "" && weak && (url.value.scheme == "http" || url.value.scheme == "https") then
      c.sources[jobKey := PrintSource(jobKey, CloudHttp, url.value.fileName, None, url.value.text,
                                      Max(1, IntegerOf(Get(usage, Key.PlateIndex), 1)), None)]
    else c.sources
  }

  // The new references play no part in the choice of source.
  lemma EnrichmentReads(c: Core, references: map<string, Report>, jobKey: string, usage: Report, url: Option<CloudUrl>)
    ensures EnrichedSources(c.(usageReferences := references), jobKey, usage, url)
         == EnrichedSources(c, jobKey, usage, url)
  {}

  predicate Accepts(c: Core, jobKey: string) {
    jobKey != "" && c.view.jobKey == Some(jobKey)
  }

  function AfterEnrich(c: Core, jobKey: string, usage: Report, url: Option<CloudUrl>): Core {
    if Accepts(c, jobKey) then
      Rebuild(c.(usageReferences := map[jobKey := usage], sources := EnrichedSources(c, jobKey, usage, url)), None)
    else c
  }

  // Whether the input makes the broker publish a snapshot.
  predicate Publishes(c: Core, input: Input) {
    match input
    case Submit(job) => job.blob.Some?
    case Firmware(report) => report.Obj?
    case Enrich(jobKey, _, _) => Accepts(c, jobKey)
    case FileAccess(available) => available != c.fileAvailable
  }

  function After(c: Core, input: Input): Core {
    if !Publishes(c, input) then c
    else match input
      case Submit(job) => AfterSubmit(c, job)
      case Firmware(report) => AfterReport(c, report.fields)
      case Enrich(jobKey, usage, url) => AfterEnrich(c, jobKey, usage, url)
      case FileAccess(available) => Rebuild(c.(fileAvailable := available), None)
  }

  function AfterAll(c: Core, inputs: seq<Input>): Core
    decreases inputs
  {
    if inputs == [] then c else AfterAll(After(c, inputs[0]), inputs[1..])
  }

  // The snapshots a run publishes, numbered from the counter the broker starts with.
  function Published(c: Core, sequence: nat, inputs: seq<Input>): seq<Snapshot>
    decreases inputs
  {
    if inputs == [] then []
    else
      var next := After(c, inputs[0]);
      if Publishes(c, inputs[0])
      then [Snapshot(sequence + 1, next.view)] + Published(next, sequence + 1, inputs[1..])
      else Published(next, sequence, inputs[1..])
  }

  function SourceFor(c: Core, jobKey: string): Option<PrintSource> {
    if Accepts(c, jobKey) then LookupKey(c.sources, Some(jobKey)) else None
  }

  /** The broker of one printer. */
  class PrintEventBroker {
    const maxQueueSize: int
    var raw: Report
    var sources: map<string, PrintSource>
    var usageReferences: map<string, Report>
    var pendingSource: Option<PrintSource>
    var activeJobKey: Option<string>
    var sequence: nat
    var snapshot: Snapshot
    var printerFileAvailable: bool
    var subscribers: map<DropOldest.Subscriber, seq<Snapshot>>

    function State(): Core
      reads this
    {
      Core(raw, sources, usageReferences, pendingSource, activeJobKey, snapshot.view, printerFileAvailable)
    }

    function Fan(): DropOldest.Fan<Snapshot>
      reads this
    {
      DropOldest.Fan(Some(snapshot), subscribers)
    }

    // The state and the subscribers' queues after taking one input.
    twostate predicate Took(input: Input)
      reads this
    {
      && State() == After(old(State()), input)
      && (if Publishes(old(State()), input) then
            && sequence == old(sequence) + 1
            && snapshot == Snapshot(sequence, State().view)
            && Fan() == DropOldest.FanStep(old(Fan()), maxQueueSize, DropOldest.Publish(snapshot))
          else sequence == old(sequence) && Fan() == old(Fan()))
    }

    constructor (maxQueueSize: int, fileAvailable: bool)
      ensures this.maxQueueSize == maxQueueSize
      ensures State() == Initial(fileAvailable) && sequence == 0 && snapshot.sequence == 0
      ensures subscribers == map[]
    {
      this.maxQueueSize := maxQueueSize;
      raw, sources, usageReferences := map[], map[], map[];
      pendingSource, activeJobKey := None, None;
      sequence := 0;
      snapshot := Snapshot(0, EMPTY_VIEW);
      printerFileAvailable := fileAvailable;
      subscribers := map[];
    }

    method DeriveJobKey() returns (key: Option<string>)
      modifies this`activeJobKey
      ensures (key, activeJobKey) == DeriveKey(old(State()))
    {
      if activeJobKey != None {
        return activeJobKey;
      }
      var meaningful, name := MeaningfulIds(raw), NameOf(raw);
      if meaningful != [] {
        activeJobKey := Some("printer:" + Joined(meaningful + if name != "" then [name] else []));
        return activeJobKey;
      }
      if pendingSource.Some? {
        return Some(pendingSource.value.jobKey);
      }
      if name != "" {
        var previous := snapshot.view.jobKey.GetOr("");
        activeJobKey := Some(if previous != "" then previous else "printer:name:" + name);
        return activeJobKey;
      }
      return None;
    }

    method BuildSnapshot(preferred: Option<string>) returns (built: Snapshot)
      modifies this`sequence, this`activeJobKey, this`sources, this`pendingSource
      ensures sequence == old(sequence) + 1 == built.sequence
      ensures State().(view := built.view) == Rebuild(old(State()), preferred)
    {
      hide ViewOf, ReportedUrl, Phase, Adopted, FromUrl, DeriveKey;
      sequence := sequence + 1;
      var phase := Phase(raw);
      var key := preferred;
      if preferred.GetOr("") == "" {
        key := DeriveJobKey();
      }
      var source := LookupKey(sources, key);
      if source.Some? && pendingSource.Some? && source.value.jobKey == pendingSource.value.jobKey
         && phase in ACTIVE_STATES {
        pendingSource := None;
      }
      if source.None? && pendingSource.Some? && phase !in TERMINAL_STATES {
        source := pendingSource;
        if key.GetOr("") != "" && key.value != source.value.jobKey {
          source := Some(Adopted(source.value, key.value));
          sources := sources[key.value := source.value];
          pendingSource := None;
        }
      }
      var url := ReportedUrl(raw);
      if source.None? && key.GetOr("") != "" && url != "" {
        source := Some(FromUrl(key.value, url));
        sources := sources[key.value := source.value];
      }
      built := Snapshot(sequence, ViewOf(raw, usageReferences, snapshot.view, printerFileAvailable, key, source));
    }

    method FanOut()
      modifies this`subscribers
      ensures Fan() == DropOldest.FanStep(old(Fan()), maxQueueSize, DropOldest.Publish(snapshot))
    {
      var waiting := subscribers.Keys;
      while waiting != {}
        invariant waiting <= subscribers.Keys == old(subscribers).Keys
        invariant forall id | id in subscribers ::
          subscribers[id] == if id in waiting then old(subscribers)[id]
                             else DropOldest.Push(old(subscribers)[id], maxQueueSize, snapshot)
      {
        var id :| id in waiting;
        subscribers := subscribers[id := DropOldest.Push(subscribers[id], maxQueueSize, snapshot)];
        waiting := waiting - {id};
      }
      assert subscribers == DropOldest.PushAll(old(subscribers), maxQueueSize, snapshot);
    }

    method RegisterSource(job: Submission) returns (key: Result<string, ()>)
      modifies this
      ensures Took(Submit(job))
      ensures key == if job.blob.Some? then Ok(GatewayKey(job)) else Err(())
    {
      hide Rebuild, PlateEntry, GatewayKey, AfterReport, AfterEnrich;
      if job.blob.None? {
        return Err(());
      }
      var source := GatewaySource(job);
      sources := map[source.jobKey := source];
      usageReferences := map[];
      pendingSource := Some(source);
      activeJobKey := Some(source.jobKey);
      raw := raw[Key.SubtaskName := Str(job.filename)];
      raw := raw[Key.Param := Str(PlateEntry(job.plateId))];
      raw := raw[Key.AmsMapping := Numbers(job.amsMapping.GetOr([]))];
      snapshot := BuildSnapshot(Some(source.jobKey));
      FanOut();
      return Ok(source.jobKey);
    }

    // A job boundary: everything but the pending gateway job it may announce is dropped.
    method StartJob(report: Report)
      modifies this`raw, this`snapshot, this`activeJobKey, this`sources, this`usageReferences
      ensures State() == Reset(old(State()), report)
    {
      hide NameOf;
      var incomingName := NameOf(report);
      raw := map[];
      snapshot := Snapshot(0, EMPTY_VIEW);
      var pendingName := if pendingSource.Some? then pendingSource.value.filename else "";
      if pendingName == "" || (incomingName != "" && incomingName != pendingName) {
        activeJobKey := None;
        sources := map[];
        usageReferences := map[];
      }
    }

    method Update(report: Value) returns (current: Snapshot)
      modifies this
      ensures Took(Firmware(report)) && current == snapshot
    {
      hide Rebuild, Boundary, NameOf, Merge, Reset, AfterSubmit, AfterEnrich;
      if !report.Obj? {
        return snapshot;
      }
      if Boundary(raw, report.fields) {
        StartJob(report.fields);
      }
      raw := MergeInto(raw, report.fields);
      snapshot := BuildSnapshot(None);
      FanOut();
      current := snapshot;
    }

    method EnrichJob(jobKey: string, usage: Report, url: Option<CloudUrl>) returns (accepted: bool)
      modifies this
      ensures Took(Enrich(jobKey, usage, url))
      ensures accepted == Accepts(old(State()), jobKey)
    {
      hide Rebuild, EnrichedSources, AfterSubmit, AfterReport;
      if jobKey == "" || snapshot.view.jobKey != Some(jobKey) {
        return false;
      }
      EnrichmentReads(State(), map[jobKey := usage], jobKey, usage, url);
      usageReferences := map[jobKey := usage];
      sources := EnrichedSources(State(), jobKey, usage, url);
      snapshot := BuildSnapshot(None);
      FanOut();
      return true;
    }

    method SetPrinterFileAvailable(available: bool)
      modifies this
      ensures Took(FileAccess(available))
    {
      hide Rebuild, AfterSubmit, AfterReport, AfterEnrich;
      if printerFileAvailable == available {
        return;
      }
      printerFileAvailable := available;
      snapshot := BuildSnapshot(None);
      FanOut();
    }

    method Subscribe(id: DropOldest.Subscriber)
      requires id !in subscribers
      modifies this`subscribers
      ensures Fan() == DropOldest.FanStep(old(Fan()), maxQueueSize, DropOldest.Join(id))
    {
      subscribers := subscribers[id := [snapshot]];
    }

    method Unsubscribe(id: DropOldest.Subscriber)
      modifies this`subscribers
      ensures Fan() == DropOldest.FanStep(old(Fan()), maxQueueSize, DropOldest.Leave(id))
    {
      subscribers := subscribers - {id};
    }
  }
}
