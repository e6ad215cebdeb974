/** What the first report of a print makes the broker show: its key, its 3MF source and the fields reported last. */
module PrintSources {
  import opened Prelude
  import opened Text
  import opened Reports
  import opened PrintTracking
  import opened JobTracking
  import opened JobBoundaries

  // ---------------------------------------------------------------------
  // The key

  function IdPart(r: Report, key: Key): string {
    if Real(TextOf(Get(r, key))) then ":" + TextOf(Get(r, key)) else ""
  }

  function Ids(r: Report): string {
    IdPart(r, TaskId) + IdPart(r, SubtaskId) + IdPart(r, GcodeStartTime)
  }

  function Colons(parts: seq<string>): string {
    if parts == [] then "" else ":" + parts[0] + Colons(parts[1..])
  }

  lemma {:induction false} ColonsJoin(parts: seq<string>)
    requires parts != []
    ensures ":" + Joined(parts) == Colons(parts)
  {
    if |parts| > 1 {
      ColonsJoin(parts[1..]);
      assert ":" + Joined(parts) == ":" + parts[0] + (":" + Joined(parts[1..]));
    } else {
      OneColon(parts[0]);
      assert parts == [parts[0]];
    }
  }

  lemma {:induction false} ColonsConcat(a: seq<string>, b: seq<string>)
    ensures Colons(a + b) == Colons(a) + Colons(b)
  {
    if a == [] {
      assert a + b == b;
    } else {
      assert (a + b)[1..] == a[1..] + b;
      ColonsConcat(a[1..], b);
    }
  }

  lemma {:induction false} ColonsOfIds(r: Report)
    ensures Colons(MeaningfulIds(r)) == Ids(r)
    ensures MeaningfulIds(r) == [] <==> Ids(r) == ""
  {
    hide TextOf;
    var task, subtask := TextOf(Get(r, TaskId)), TextOf(Get(r, SubtaskId));
    var started := TextOf(Get(r, GcodeStartTime));
    var a := if Meaningful(task) then [task] else [];
    var b := if Meaningful(subtask) then [subtask] else [];
    var d := if Meaningful(started) then [started] else [];
    OneColon(task);
    OneColon(subtask);
    OneColon(started);
    ColonsConcat(a + b, d);
    ColonsConcat(a, b);
  }

  lemma OneColon(s: string)
    ensures Colons([s]) == ":" + s
  {
    assert Colons([s][1..]) == "";
  }

  // The key a report gives a print when nothing else is known.
  function FreshKey(report: Report): Option<string> {
    var named := if JobName(report) != "" then ":" + JobName(report) else "";
    if Ids(report) != "" then Some("printer" + Ids(report) + named)
    else if JobName(report) != "" then Some("printer:name" + named)
    else None
  }

  lemma {:induction false} DerivesFreshKey(c: Core)
    requires c.activeKey.None? && c.view.jobKey.None?
    ensures Ids(c.raw) != "" || c.pending.None? ==> DeriveKey(c) == (FreshKey(c.raw), FreshKey(c.raw))
    ensures Ids(c.raw) == "" && c.pending.Some? ==> DeriveKey(c) == (Some(c.pending.value.jobKey), None)
  {
    NamesAre(c.raw);
    ColonsOfIds(c.raw);
    hide NameOf, JobName, MeaningfulIds, Ids;
    var ids, name := MeaningfulIds(c.raw), JobName(c.raw);
    var parts := ids + if name != "" then [name] else [];
    if ids != [] {
      ColonsJoin(parts);
      ColonsConcat(ids, if name != "" then [name] else []);
      OneColon(name);
      assert ids + [] == ids;
      var named := if name != "" then ":" + name else "";
      assert Colons(parts) == Ids(c.raw) + named;
      assert "printer:" + Joined(parts) == "printer" + Colons(parts) == "printer" + Ids(c.raw) + named;
    } else {
      assert "printer:name:" + name == "printer:name" + (":" + name);
    }
  }

  /**
   * The key under which a print is known when no submission is pending: the ids the printer reported and then its
   * name, or the name alone, or no key at all.
   */
  lemma {:induction false} KeyOfFreshPrint(fileAvailable: bool, report: Report)
    ensures var after := AfterReport(Initial(fileAvailable), report);
            var named := if JobName(report) != "" then ":" + JobName(report) else "";
            && after.raw == report && after.activeKey == after.view.jobKey
            && after.view.jobKey ==
               if Ids(report) != "" then Some("printer" + Ids(report) + named)
               else if JobName(report) != "" then Some("printer:name" + named)
               else None
  {
    NothingToSplit(report);
    MergeIntoNothing(report);
    hide ViewOf, Settle, JobName, Ids, Boundary, Merge, DeriveKey;
    var c := Initial(fileAvailable).(raw := report);
    DerivesFreshKey(c);
    var (derived, _) := DeriveKey(c);
    var (source, _, _) := Settle(c, derived);
    ViewShowsKey(c, derived, source);
  }

  /** A print already shown under some key keeps it when all a later report of it adds is a name. */
  lemma {:induction false} NameAloneKeepsKey(c: Core, report: Report)
    requires !NewPrint(c.raw, report) && c.activeKey.None? && c.pending.None?
    requires c.view.jobKey.Some? && c.view.jobKey.value != ""
    requires var raw := Merge(c.raw, report); Ids(raw) == "" && JobName(raw) != ""
    ensures var after := AfterReport(c, report); after.view.jobKey == after.activeKey == c.view.jobKey
  {
    var next := c.(raw := Merge(c.raw, report));
    BoundaryIff(c.raw, report);
    ColonsOfIds(next.raw);
    NamesAre(next.raw);
    hide Merge, Boundary, NewPrint, Ids, JobName, NameOf, ViewOf, Settle, MeaningfulIds;
    BuiltView(next);
  }

  // ---------------------------------------------------------------------
  // The 3MF source

  // The source shown, and what it says of itself.
  lemma {:induction false} BuiltView(c: Core)
    ensures var (key, active) := DeriveKey(c);
            var (source, sources, pending) := Settle(c, key);
            var after := Rebuild(c, None);
            && after.view.jobKey == key && after.activeKey == active
            && after.sources == sources && after.pending == pending
            && after.view.source == StatusOf(source, c.raw, c.fileAvailable)
            && after.view.amsMapping == Mapping(c.raw, c.view.amsMapping, source)
  {
    hide StatusOf, Mapping, Settle, DeriveKey, TrayShown, NameOf, Phase;
  }

  predicate Web(url: string) {
    Lower(Before(url, ':')) in {"http", "https"}
  }

  /**
   * A report tells where its file is by the first address it carries; without one only a 3MF file name does, which is
   * its own address when it is one.
   */
  lemma {:induction false} FirstAddressTells(r: Report)
    ensures var (url, file) := (ReportedUrl(r), TextOf(Get(r, GcodeFile)));
            && (TextOf(Get(r, Url)) != "" ==> url == TextOf(Get(r, Url)))
            && (TextOf(Get(r, Url)) == "" != TextOf(Get(r, ProjectFile)) ==> url == TextOf(Get(r, ProjectFile)))
            && (TextOf(Get(r, Url)) == TextOf(Get(r, ProjectFile)) == "" != TextOf(Get(r, FileUrl)) ==>
                  url == TextOf(Get(r, FileUrl)))
            && (TextOf(Get(r, Url)) == TextOf(Get(r, ProjectFile)) == TextOf(Get(r, FileUrl)) == "" ==>
                  && (!EndsWith(Lower(file), ".3mf") ==> url == "")
                  && (EndsWith(Lower(file), ".3mf") && Contains(file, "://") ==> url == file))
  {
    hide TextOf, Lower, Contains, EndsWith, PathName;
  }

  // A file name as printers report it: one path component that is a 3MF.
  predicate Is3mf(name: string) {
    && name != "" && '/' !in name && !IsSpace(name[0]) && !IsSpace(name[|name| - 1])
    && EndsWith(Lower(name), ".3mf")
  }

  predicate OnlyFile(r: Report, file: string) {
    && TextOf(Get(r, Url)) == TextOf(Get(r, ProjectFile)) == TextOf(Get(r, FileUrl)) == ""
    && Get(r, GcodeFile) == Str(file)
  }

  lemma NoScheme(file: string)
    requires forall i | 0 < i < |file| :: file[i] == '/' ==> file[i - 1] != ':'
    ensures !Contains(file, "://")
  {
    forall i | 0 <= i <= |file| ensures !("://" <= file[i..]) {
      if i + 3 <= |file| {
        assert file[i..][0] == file[i] && file[i..][1] == file[i + 1];
        assert "://"[0] == ':' && "://"[1] == '/';
      }
    }
  }

  lemma {:induction false} PlainPathName(name: string, current: string, last: string)
    requires '/' !in name && current + name !in {"", "."}
    ensures PathNameFrom(name, current, last) == current + name
  {
    if name != "" {
      assert current + [name[0]] + name[1..] == current + name;
      PlainPathName(name[1..], current + [name[0]], last);
    } else {
      assert current + name == current;
    }
  }

  lemma Suffixed(prefix: string, name: string)
    requires EndsWith(Lower(name), ".3mf")
    ensures EndsWith(Lower(prefix + name), ".3mf")
  {
    assert Lower(prefix + name) == Lower(prefix) + Lower(name);
  }

  lemma {:induction false} UrlOfFile(r: Report, file: string)
    requires OnlyFile(r, file) && TextOf(Str(file)) == file
    requires EndsWith(Lower(file), ".3mf") && !Contains(file, "://")
    ensures ReportedUrl(r) ==
            if "/sdcard/" <= file then "file://" + file
            else if "/cache/" <= file then "file:///sdcard" + file
            else if PathName(file) != "" then "file:///sdcard/cache/" + PathName(file)
            else ""
  {
    hide TextOf, Contains, Lower, PathName;
  }

  lemma {:induction false} BareFile(name: string)
    requires Is3mf(name)
    ensures PathName(name) == name && !("/sdcard/" <= name) && !("/cache/" <= name) && !Contains(name, "://")
  {
    hide Contains;
    assert EndsWith(Lower(name), ".3mf") ==> |name| >= 4;
    PlainPathName(name, "", "");
    assert "" + name == name;
    assert "/sdcard/"[0] == "/cache/"[0] == '/';
    NoScheme(name);
  }

  lemma {:induction false} CachedFile(name: string, folder: string)
    requires Is3mf(name) && folder in {"/cache/", "/sdcard/cache/"}
    ensures TextOf(Str(folder + name)) == folder + name && !Contains(folder + name, "://")
    ensures EndsWith(Lower(folder + name), ".3mf")
  {
    hide Contains;
    PlainText(folder + name);
    Suffixed(folder, name);
    NoScheme(folder + name);
  }

  lemma {:induction false} BareSpelling(name: string, r: Report)
    requires Is3mf(name) && OnlyFile(r, name)
    ensures ReportedUrl(r) == "file:///sdcard/cache/" + name
  {
    hide TextOf, Contains, Lower, PathName, ReportedUrl, OnlyFile;
    BareFile(name);
    PlainText(name);
    UrlOfFile(r, name);
  }

  lemma {:induction false} CacheSpelling(name: string, r: Report)
    requires Is3mf(name) && OnlyFile(r, "/cache/" + name)
    ensures ReportedUrl(r) == "file:///sdcard/cache/" + name
  {
    hide TextOf, Contains, Lower, PathName, ReportedUrl, OnlyFile;
    CachedFile(name, "/cache/");
    UrlOfFile(r, "/cache/" + name);
    assert ("/cache/" + name)[1] == 'c' && "/sdcard/"[1] == 's';
    assert "file:///sdcard" + ("/cache/" + name) == "file:///sdcard/cache/" + name;
  }

  lemma {:induction false} CardSpelling(name: string, r: Report)
    requires Is3mf(name) && OnlyFile(r, "/sdcard/cache/" + name)
    ensures ReportedUrl(r) == "file:///sdcard/cache/" + name
  {
    hide TextOf, Contains, Lower, PathName, ReportedUrl, OnlyFile;
    CachedFile(name, "/sdcard/cache/");
    UrlOfFile(r, "/sdcard/cache/" + name);
    assert ("/sdcard/cache/" + name)[..8] == "/sdcard/";
    assert "file://" + ("/sdcard/cache/" + name) == "file:///sdcard/cache/" + name;
  }

  /** Three ways a printer spells a file in its cache, the bare name among them, tell the same place. */
  lemma {:induction false} CacheSpellingsAgree(name: string, r: Report)
    requires Is3mf(name)
    requires OnlyFile(r, name) || OnlyFile(r, "/cache/" + name) || OnlyFile(r, "/sdcard/cache/" + name)
    ensures ReportedUrl(r) == "file:///sdcard/cache/" + name
  {
    hide ReportedUrl, OnlyFile, Is3mf;
    if OnlyFile(r, name) {
      BareSpelling(name, r);
    } else if OnlyFile(r, "/cache/" + name) {
      CacheSpelling(name, r);
    } else {
      CardSpelling(name, r);
    }
  }

  lemma PlainText(s: string)
    requires s != "" && !IsSpace(s[0]) && !IsSpace(s[|s| - 1])
    ensures TextOf(Str(s)) == s
  {}

  /**
   * With no submission pending, a print has a source exactly when it has a key and its report tells where the file
   * is: a file on the web can always be fetched, one on the printer only with access to its files.
   */
  lemma {:induction false} SourceOfFreshPrint(fileAvailable: bool, report: Report)
    ensures var after := AfterReport(Initial(fileAvailable), report);
            var (shown, url) := (after.view.source, ReportedUrl(report));
            if FreshKey(report).None? || url == "" then
              after.sources == map[] && !shown.available && shown.reason == Some(NotRetrievable)
            else
              var key := FreshKey(report).value;
              && SourceFor(after, key) ==
                 Some(PrintSource(key, if Web(url) then Http else PrinterFtps, PathName(url), None, url, 1, None))
              && after.sources.Keys == {key} && shown.url == Some(url) && shown.filename == Some(PathName(url))
              && shown.available == (Web(url) || fileAvailable)
              && shown.reason == if shown.available then None else Some(CredentialsUnavailable)
  {
    NothingToSplit(report);
    MergeIntoNothing(report);
    hide JobName, Ids, Boundary, Merge, DeriveKey, ReportedUrl, PathName, Lower, Before, NameOf, Phase, ViewOf, Rebuild;
    var c := Initial(fileAvailable).(raw := report);
    DerivesFreshKey(c);
    BuiltView(c);
  }

  // The mapping reported, entry by entry and -1 for what is no number, or the file's own where none is reported.
  predicate ShowsMapping(view: View, report: Report, own: seq<int>) {
    var reported := Get(report, AmsMapping);
    if reported.List? && reported.items != [] then
      && |view.amsMapping| == |reported.items|
      && forall i | 0 <= i < |reported.items| :: view.amsMapping[i] == IntegerOf(reported.items[i], -1)
    else view.amsMapping == own
  }

  predicate ShowsEntry(view: View, report: Report, plateId: Option<int>) {
    var entry := TextOf(if Param in report && Truthy(report[Param]) then report[Param] else Get(report, GcodeEntry));
    view.gcodeEntry ==
      if entry != "" then Some(entry)
      else if plateId.Some? then Some("Metadata/plate_" + Decimal(plateId.value) + ".gcode")
      else None
  }

  lemma {:induction false} BuiltPlate(c: Core)
    requires c.view.amsMapping == []
    ensures var (key, _) := DeriveKey(c);
            var (source, _, _) := Settle(c, key);
            var view := Rebuild(c, None).view;
            var own := if source.Some? then source.value.amsMapping.GetOr([]) else [];
            && ShowsMapping(view, c.raw, own)
            && ShowsEntry(view, c.raw, if source.Some? then Some(source.value.plateId) else None)
  {
    hide Settle, DeriveKey, ViewOf, ShowsMapping, ShowsEntry;
    var (key, active) := DeriveKey(c);
    var (source, _, _) := Settle(c, key);
    ViewShowsPlate(c.raw, c.usageReferences, c.view, c.fileAvailable, key, source);
  }

  lemma {:induction false} ViewShowsPlate(raw: Report, references: map<string, Report>, previous: View,
                                          fileAvailable: bool, key: Option<string>, source: Option<PrintSource>)
    requires previous.amsMapping == []
    ensures var view := ViewOf(raw, references, previous, fileAvailable, key, source);
            && ShowsMapping(view, raw, if source.Some? then source.value.amsMapping.GetOr([]) else [])
            && ShowsEntry(view, raw, if source.Some? then Some(source.value.plateId) else None)
  {
    hide StatusOf, TrayShown, NameOf, Phase, IntegerOf, Decimal, TextOf;
    assert Integers([]) == [];
    assert !Truthy(Null);
  }

  lemma {:induction false} ViewTitle(raw: Report, references: map<string, Report>, previous: View,
                                     fileAvailable: bool, key: Option<string>, source: Option<PrintSource>)
    ensures var view := ViewOf(raw, references, previous, fileAvailable, key, source);
            var k, name := key.GetOr(""), NameOf(raw);
            var title := if k in references then TextOf(Get(references[k], Title)) else "";
            && view.jobKey == key
            && view.jobName ==
               if name != "" then Some(name) else if title != "" then Some(title) else view.source.filename
  {
    hide NameOf, Mapping, TrayShown, Phase, ReportedUrl, IntegerOf, TextOf;
  }

  /**
   * When the firmware gives the pending submission's print ids of its own, the file is registered again under the
   * key made of those ids, and the submission is used up; a report of a print already over leaves it pending. The
   * plate and the mapping of the submission are shown where the report tells none.
   */
  lemma {:induction false} SubmissionIsAdopted(fileAvailable: bool, pending: PrintSource, report: Report)
    requires Ids(report) != "" && FreshKey(report) != Some(pending.jobKey)
    ensures var after := AfterReport(Initial(fileAvailable).(pending := Some(pending)), report);
            var key := FreshKey(report).value;
            && after.view.jobKey == after.activeKey == Some(key)
            && if Over(report) then after.pending == Some(pending) && after.view.source.kind != Some(Registered)
               else
                 && after.pending.None? && after.sources.Keys == {key}
                 && SourceFor(after, key) ==
                    Some(pending.(jobKey := key, url := "", amsMapping := Some(pending.amsMapping.GetOr([]))))
                 && ShowsMapping(after.view, report, pending.amsMapping.GetOr([]))
                 && ShowsEntry(after.view, report, Some(pending.plateId))
  {
    NothingToSplit(report);
    MergeIntoNothing(report);
    BeginsIff(report);
    hide JobName, Ids, Boundary, Merge, DeriveKey, ReportedUrl, PathName, Lower, Before, NameOf, ViewOf, Rebuild,
      StateOf, Over, FromUrl;
    hide ShowsMapping, ShowsEntry;
    FromUrlIsNotRegistered(FreshKey(report).value, ReportedUrl(report));
    var c := Initial(fileAvailable).(pending := Some(pending), raw := report);
    DerivesFreshKey(c);
    BuiltView(c);
    BuiltPlate(c);
  }

  /**
   * A report without ids of its own shows the pending submission under the submission's key, and leaves it pending
   * and the registry empty: only the printer's ids, or a print seen under that key, use it up.
   */
  lemma {:induction false} SubmissionStaysPending(fileAvailable: bool, pending: PrintSource, report: Report)
    requires Ids(report) == "" && pending.jobKey != "" && !Over(report)
    ensures var after := AfterReport(Initial(fileAvailable).(pending := Some(pending)), report);
            && after.view.jobKey == Some(pending.jobKey) && after.activeKey.None?
            && after.pending == Some(pending) && after.sources == map[]
            && after.view.source.kind == Some(pending.kind) && after.view.source.filename == Some(pending.filename)
            && ShowsMapping(after.view, report, pending.amsMapping.GetOr([]))
            && ShowsEntry(after.view, report, Some(pending.plateId))
  {
    NothingToSplit(report);
    MergeIntoNothing(report);
    BeginsIff(report);
    hide JobName, Ids, Boundary, Merge, DeriveKey, ReportedUrl, PathName, Lower, Before, NameOf, ViewOf, Rebuild,
      StateOf, Over, FromUrl, ShowsMapping, ShowsEntry;
    var c := Initial(fileAvailable).(pending := Some(pending), raw := report);
    DerivesFreshKey(c);
    BuiltView(c);
    BuiltPlate(c);
  }

  lemma FromUrlIsNotRegistered(key: string, url: string)
    ensures FromUrl(key, url).kind != Registered
  {}

  /**
   * A pending submission is used up by the first report that shows its own print going on, and by no other report
   * that leaves it in place.
   */
  lemma {:induction false} PendingUntilSeenRunning(c: Core, source: PrintSource, report: Report)
    requires Holds(c, source) && Follows(c, report)
    ensures var after := AfterReport(c, report);
            after.pending ==
            if c.pending.Some? && c.pending.value.jobKey == source.jobKey && Active(after.raw) then None else c.pending
  {
    BeginsIff(AfterReport(c, report).raw);
    hide Boundary, Merge, DeriveKey, ReportedUrl, NameOf, ViewOf, StateOf, Active, FromUrl;
    var base := if Boundary(c.raw, report) then Reset(c, report) else c;
    var merged := base.(raw := Merge(base.raw, report));
    RebuildKeepsRaw(merged);
    BuiltView(merged);
    ActiveKeyIsDerived(merged);
    IdleIsNotActive(merged.raw);
  }

  lemma ActiveKeyIsDerived(c: Core)
    requires c.activeKey.Some?
    ensures DeriveKey(c) == (c.activeKey, c.activeKey)
  {}

  lemma IdleIsNotActive(raw: Report)
    ensures PrintTracking.Phase(raw) in ACTIVE_STATES <==> StateOf(raw) in ACTIVE_STATES
  {
    hide StateOf;
  }

  /** A submitted file is at once the job shown: its key, name, plate and mapping are those of the submission. */
  lemma {:induction false} SubmissionShown(c: Core, job: Submission)
    requires job.blob.Some?
    ensures var after := AfterSubmit(c, job);
            var key := "gateway:" + job.digest + ":" + Decimal(job.plateId) + ":" + job.filename;
            var mapping := job.amsMapping.GetOr([]);
            && after.view.jobKey == after.activeKey == Some(key)
            && after.sources ==
               map[key := PrintSource(key, Registered, job.filename, job.blob, "", job.plateId, Some(mapping))]
            && after.view.source == SourceStatus(true, Some(Registered), Some(job.filename), None, None)
            && after.view.amsMapping == mapping
            && after.view.layer == IntegerOf(Get(c.raw, LayerNum), 0) && after.view.usageReference.None?
  {
    hide Decimal, NameOf, ReportedUrl, TrayShown, PlateEntry, Strip, StateOf, Joined, MeaningfulIds;
    var key := GatewayKey(job);
    GatewayKeyIsNotEmpty(job);
    assert Get(AfterSubmit(c, job).raw, AmsMapping) == Numbers(job.amsMapping.GetOr([]));
    assert Integers(Numbers(job.amsMapping.GetOr([])).items) == job.amsMapping.GetOr([]);
  }

  /**
   * Cloud metadata is taken for the job shown and for no other: its reference is shown, and its file becomes the
   * source exactly when it lies on the web and the job has no source, or only one on a printer without file access.
   */
  lemma {:induction false} EnrichmentIsAdvisory(c: Core, usage: Report, url: CloudUrl, other: string)
    requires c.activeKey.Some? && c.activeKey.value != "" && c.view.jobKey == c.activeKey
    requires c.activeKey.value in c.sources || (c.pending.None? && ReportedUrl(c.raw) == "")
    ensures var key := c.activeKey.value;
            var after := After(c, Enrich(key, usage, Some(url)));
            var known := SourceFor(c, key);
            && (other != key ==> After(c, Enrich(other, usage, Some(url))) == c)
            && after.activeKey == after.view.jobKey == c.activeKey && after.raw == c.raw
            && after.view.usageReference == (if usage == map[] then None else Some(usage))
            && SourceFor(after, key) ==
               if && url.text != "" && url.scheme in {"http", "https"}
                  && (known.None? || (known.value.kind == PrinterFtps && !c.fileAvailable))
               then Some(PrintSource(key, CloudHttp, url.fileName, None, url.text,
                                     Max(1, IntegerOf(Get(usage, PlateIndex), 1)), None))
               else known
  {
    hide ReportedUrl, NameOf, PrintTracking.Phase, IntegerOf, Mapping, TrayShown, StatusOf, TextOf;
    var key := c.activeKey.value;
    var base := c.(usageReferences := map[key := usage], sources := EnrichedSources(c, key, usage, Some(url)));
    ActiveKeyIsDerived(base);
    BuiltView(base);
    RebuildKeepsRaw(base);
  }

  /**
   * Every snapshot is titled by the name the printer reports, else by the title known from the cloud for that very
   * job, else by the file shown as its source.
   */
  lemma {:induction false} TitleShown(c: Core, input: Input)
    requires Publishes(c, input)
    ensures var after := After(c, input);
            var key, name := after.view.jobKey.GetOr(""), JobName(after.raw);
            var title := if key in after.usageReferences then TextOf(Get(after.usageReferences[key], Title)) else "";
            after.view.jobName ==
            if name != "" then Some(name) else if title != "" then Some(title) else after.view.source.filename
  {
    NamesAre(After(c, input).raw);
    hide JobName, NameOf, Boundary, Merge, EnrichedSources, Reset, Rebuild, Numbers, GatewayKey, PlateEntry;
    match input
    case Submit(job) =>
      var source := GatewaySource(job);
      RebuildTitles(
        c.(raw := c.raw[SubtaskName := Str(job.filename)]
                       [Param := Str(PlateEntry(job.plateId))]
                       [AmsMapping := Numbers(job.amsMapping.GetOr([]))],
           sources := map[source.jobKey := source], usageReferences := map[],
           pending := Some(source), activeKey := Some(source.jobKey)),
        Some(source.jobKey));
    case Firmware(report) =>
      var base := if Boundary(c.raw, report.fields) then Reset(c, report.fields) else c;
      RebuildTitles(base.(raw := Merge(base.raw, report.fields)), None);
    case Enrich(jobKey, usage, url) =>
      RebuildTitles(
        c.(usageReferences := map[jobKey := usage], sources := EnrichedSources(c, jobKey, usage, url)), None);
    case FileAccess(available) => RebuildTitles(c.(fileAvailable := available), None);
  }

  lemma {:induction false} RebuildTitles(c: Core, preferred: Option<string>)
    ensures var after := Rebuild(c, preferred);
            var key, name := after.view.jobKey.GetOr(""), NameOf(after.raw);
            var title := if key in after.usageReferences then TextOf(Get(after.usageReferences[key], Title)) else "";
            after.view.jobName ==
            if name != "" then Some(name) else if title != "" then Some(title) else after.view.source.filename
  {
    hide NameOf, Settle, DeriveKey, ViewOf, TextOf;
    var (derived, _) := if preferred.GetOr("") != "" then (preferred, c.activeKey) else DeriveKey(c);
    var (source, _, _) := Settle(c, derived);
    ViewTitle(c.raw, c.usageReferences, c.view, c.fileAvailable, derived, source);
  }

  /** Every publishing input adds one snapshot, the next in number and of the state it leads to; others add none. */
  lemma {:induction false} OneSnapshotEach(c: Core, sequence: nat, inputs: seq<Input>, last: Input)
    ensures var before := AfterAll(c, inputs);
            var published := Published(c, sequence, inputs);
            Published(c, sequence, inputs + [last]) ==
            published +
            if Publishes(before, last) then [Snapshot(sequence + |published| + 1, After(before, last).view)] else []
    decreases inputs
  {
    hide After, Publishes;
    if inputs == [] {
      assert (inputs + [last])[1..] == [];
    } else {
      assert (inputs + [last])[1..] == inputs[1..] + [last];
      var next := After(c, inputs[0]);
      var more := if Publishes(c, inputs[0]) then 1 else 0;
      OneSnapshotEach(next, sequence + more, inputs[1..], last);
    }
  }

  // ---------------------------------------------------------------------
  // Fields reported last

  // What a field last held by the reports says, as text and as a number; an object only counts as present.
  function TextAt(probe: Probe): string {
    match probe
    case Absent => ""
    case Leaf(value) => TextOf(value)
    case Node => TextOf(Obj(map[]))
  }

  function NumberAt(probe: Probe): int {
    if probe.Leaf? then IntegerOf(probe.value, 0) else 0
  }

  // What the reports last wrote at a path, or what was there before them.
  function Last(raw: Report, reports: seq<Report>, p: Path): Probe {
    LastWritten(reports, p).GetOr(ProbeAt(raw, p))
  }

  lemma FieldAt(raw: Report, key: Key)
    ensures TextOf(Get(raw, key)) == TextAt(ProbeAt(raw, [key]))
    ensures IntegerOf(Get(raw, key), 0) == NumberAt(ProbeAt(raw, [key]))
  {}

  lemma {:induction false} ShowsFields(c: Core, report: Report)
    requires !Boundary(c.raw, report)
    ensures var (raw, view) := (Merge(c.raw, report), AfterReport(c, report).view);
            && AfterReport(c, report).raw == raw
            && view.state == (if State(raw) == "" then "IDLE" else State(raw))
            && view.taskId == (if TextOf(Get(raw, TaskId)) == "" then None else Some(TextOf(Get(raw, TaskId))))
            && view.subtaskId == (if TextOf(Get(raw, SubtaskId)) == "" then None else Some(TextOf(Get(raw, SubtaskId))))
            && view.totalLayers == IntegerOf(Get(raw, TotalLayerNum), 0)
            && view.activeTray == TrayShown(raw, c.view.activeTray)
  {
    hide Boundary, Merge, Settle, DeriveKey, StatusOf, Mapping, TrayShown, NameOf, TextOf, IntegerOf, Upper;
  }

  /**
   * Through any run of partial reports of one job, its state, ids and number of layers are the ones last reported,
   * and so is the tray in use once any report of the job has told it, under the material system or else by itself.
   */
  lemma {:induction false} FieldsAreLastReported(c: Core, reports: seq<Report>)
    requires OneJob(c.raw, reports) && reports != []
    ensures var view := AfterAll(c, AsInputs(reports)).view;
            var state := Upper(TextAt(Last(c.raw, reports, [GcodeState])));
            var task, subtask := TextAt(Last(c.raw, reports, [TaskId])), TextAt(Last(c.raw, reports, [SubtaskId]));
            var tray, other := Last(c.raw, reports, [Ams, TrayNow]), Last(c.raw, reports, [ActiveTray]);
            && view.state == (if state == "" then "IDLE" else state)
            && view.taskId == (if task == "" then None else Some(task))
            && view.subtaskId == (if subtask == "" then None else Some(subtask))
            && view.totalLayers == NumberAt(Last(c.raw, reports, [TotalLayerNum]))
            && (tray.Leaf? ==>
                  var n := IntegerOf(tray.value, -1);
                  view.activeTray == if n < 0 then None else Some(n))
            && (tray.Absent? && other.Leaf? ==>
                  var n := IntegerOf(other.value, -1);
                  view.activeTray == if n < 0 then None else Some(n))
  {
    hide After, Boundary, Merge, Fold, TextOf, IntegerOf, Upper, LastWritten, TrayShown;
    var shorter, last := reports[..|reports| - 1], reports[|reports| - 1];
    var before := AfterAll(c, AsInputs(shorter));
    ReportsAccumulate(c, shorter);
    ReportsAccumulate(c, reports);
    assert AsInputs(reports) == AsInputs(shorter) + [Firmware(Obj(last))];
    AfterAllAppend(c, AsInputs(shorter), Firmware(Obj(last)));
    AfterFirmware(before, last);
    ShowsFields(before, last);
    var raw := Fold(c.raw, reports);
    assert AfterAll(c, AsInputs(reports)).raw == raw;
    FieldReported(c.raw, reports, GcodeState);
    FieldReported(c.raw, reports, TaskId);
    FieldReported(c.raw, reports, SubtaskId);
    FieldReported(c.raw, reports, TotalLayerNum);
    FoldIsLastWrite(c.raw, reports, [Ams, TrayNow]);
    FoldIsLastWrite(c.raw, reports, [ActiveTray]);
    TrayAt(raw, before.view.activeTray);
  }

  lemma AfterFirmware(c: Core, report: Report)
    ensures After(c, Firmware(Obj(report))) == AfterReport(c, report)
  {
    hide AfterReport;
  }

  lemma {:induction false} FieldReported(raw: Report, reports: seq<Report>, key: Key)
    ensures TextOf(Get(Fold(raw, reports), key)) == TextAt(Last(raw, reports, [key]))
    ensures IntegerOf(Get(Fold(raw, reports), key), 0) == NumberAt(Last(raw, reports, [key]))
  {
    hide Fold, TextAt, NumberAt;
    FoldIsLastWrite(raw, reports, [key]);
    FieldAt(Fold(raw, reports), key);
  }

  lemma {:induction false} TrayAt(raw: Report, previous: Option<int>)
    ensures var tray, other := ProbeAt(raw, [Ams, TrayNow]), ProbeAt(raw, [ActiveTray]);
            && (tray.Leaf? ==>
                  var n := IntegerOf(tray.value, -1);
                  TrayShown(raw, previous) == if n < 0 then None else Some(n))
            && (tray.Absent? && other.Leaf? ==>
                  var n := IntegerOf(other.value, -1);
                  TrayShown(raw, previous) == if n < 0 then None else Some(n))
  {
    hide IntegerOf;
    assert [Ams, TrayNow][1..] == [TrayNow];
  }

  // ---------------------------------------------------------------------
  // One print after another

  const FINISHED: Report := map[GcodeState := Str("FINISH"), TaskId := Int(1), LayerNum := Int(200)]
  const RUNNING: Report := map[GcodeState := Str("RUNNING")]

  lemma {:induction false} FinishedFacts()
    ensures Over(FINISHED) && Ids(FINISHED) == ":1" && JobName(FINISHED) == ""
  {
    PlainText("FINISH");
    assert Upper("FINISH") == "FINISH";
    assert TextOf(Int(1)) == Digits(1) == "1";
  }

  lemma {:induction false} RunningFacts()
    ensures Active(RUNNING) && Ids(RUNNING) == "" && JobName(RUNNING) == ""
  {
    PlainText("RUNNING");
    assert Upper("RUNNING") == "RUNNING";
  }

  /** A print that ended on layer 200 is followed by a report that says only that it runs: layer 0, and no key yet. */
  lemma {:induction false} NothingIsInherited(fileAvailable: bool)
    ensures var ended := AfterReport(Initial(fileAvailable), FINISHED);
            var next := AfterReport(ended, RUNNING);
            && ended.view.layer == 200 && ended.view.jobKey == Some("printer:1")
            && next.view.layer == 0 && next.view.jobKey.None?
  {
    var blank := Initial(fileAvailable);
    NothingToSplit(FINISHED);
    NothingToSplit(RUNNING);
    FinishedFacts();
    RunningFacts();
    hide AfterReport, Boundary, Merge, Ids, JobName, TextOf, Over, Active;
    ShowsLayer(blank, FINISHED);
    ShowsLayer(blank, RUNNING);
    MergeIntoNothing(FINISHED);
    MergeIntoNothing(RUNNING);
    KeyOfFreshPrint(fileAvailable, FINISHED);
    KeyOfFreshPrint(fileAvailable, RUNNING);
    assert "printer" + ":1" + "" == "printer:1";
    NoPendingLeft(blank, FINISHED);
    NextPrintIsFresh(AfterReport(blank, FINISHED), RUNNING);
  }

  lemma ShowsLayer(c: Core, report: Report)
    requires !Boundary(c.raw, report)
    ensures AfterReport(c, report).view.layer == IntegerOf(Get(Merge(c.raw, report), LayerNum), 0)
  {
    hide Boundary, Merge, Settle, DeriveKey, StatusOf, Mapping, TrayShown, NameOf, TextOf, IntegerOf;
  }

  lemma NoPendingLeft(c: Core, report: Report)
    requires c.pending.None?
    ensures AfterReport(c, report).pending.None? && AfterReport(c, report).fileAvailable == c.fileAvailable
  {
    hide Boundary, Merge, DeriveKey, ReportedUrl, NameOf, ViewOf, StateOf, FromUrl;
  }
}
