/** When a firmware report begins another print and what that makes the broker forget, on the fields of the reports. */
module JobBoundaries {
  import opened Prelude
  import opened Text
  import opened Reports
  import opened PrintTracking
  import JobTracking

  function State(r: Report): string {
    Upper(TextOf(Get(r, GcodeState)))
  }

  predicate Active(r: Report) {
    State(r) in {"RUNNING", "PAUSE", "PAUSED", "PREPARE", "PREPARING", "SLICING"}
  }

  predicate Over(r: Report) {
    State(r) in {"FINISH", "FAILED", "FAIL", "CANCELLED", "CANCELED"}
  }

  // The report shows a print going on, or hands the printer a file.
  predicate Begins(r: Report) {
    Active(r) || (Command in r && r[Command] == Str("project_file"))
  }

  predicate Real(id: string) {
    id !in {"", "0"}
  }

  // Both carry a real id, and not the same.
  predicate Moved(raw: Report, report: Report, key: Key) {
    var was, now := TextOf(Get(raw, key)), TextOf(Get(report, key));
    Real(was) && Real(now) && was != now
  }

  predicate Confirms(raw: Report, report: Report, key: Key) {
    var was, now := TextOf(Get(raw, key)), TextOf(Get(report, key));
    Real(now) && was == now
  }

  function JobName(r: Report): string {
    TextOf(if SubtaskName in r && Truthy(r[SubtaskName]) then r[SubtaskName] else Get(r, GcodeFile))
  }

  predicate Renamed(raw: Report, report: Report) {
    && JobName(raw) != "" && JobName(report) != ""
    && NameIdentity(JobName(raw)) != NameIdentity(JobName(report))
    && !Confirms(raw, report, TaskId) && !Confirms(raw, report, SubtaskId)
  }

  // The report belongs to another print than what was accumulated.
  predicate NewPrint(raw: Report, report: Report) {
    || (Active(report) && Over(raw))
    || (Begins(report)
        && (|| Moved(raw, report, TaskId) || Moved(raw, report, SubtaskId) || Moved(raw, report, GcodeStartTime)
            || Renamed(raw, report)))
  }

  // A submission is waiting for its print, and the report does not name another file.
  predicate Awaited(c: Core, report: Report) {
    && c.pending.Some? && c.pending.value.filename != ""
    && JobName(report) in {"", c.pending.value.filename}
  }

  lemma NamesAre(r: Report)
    ensures NameOf(r) == JobName(r)
  {
    if SubtaskName !in r {
      assert !Truthy(Null);
    }
  }

  lemma BeginsIff(r: Report)
    ensures Starts(r) <==> Begins(r)
    ensures Active(r) <==> StateOf(r) in ACTIVE_STATES
    ensures Over(r) <==> StateOf(r) in TERMINAL_STATES
  {
    hide TextOf, Upper;
  }

  lemma IdentityIff(raw: Report, report: Report)
    ensures IdentityChanged(raw, report) <==>
            Moved(raw, report, TaskId) || Moved(raw, report, SubtaskId) || Moved(raw, report, GcodeStartTime)
    ensures IdentityStable(raw, report) <==> Confirms(raw, report, TaskId) || Confirms(raw, report, SubtaskId)
  {
    hide TextOf;
  }

  lemma {:induction false} BoundaryIff(raw: Report, report: Report)
    ensures Boundary(raw, report) <==> NewPrint(raw, report)
  {
    NamesAre(raw);
    NamesAre(report);
    BeginsIff(raw);
    BeginsIff(report);
    IdentityIff(raw, report);
    hide NameOf, JobName, NameIdentity, StateOf, Starts, Active, Over, Begins, IdentityChanged, IdentityStable, Moved,
      Confirms;
  }

  lemma {:induction false} MergeIntoNothing(report: Report)
    ensures Merge(map[], report) == report
  {}

  lemma {:induction false} RebuildKeepsRaw(c: Core)
    ensures Rebuild(c, None).raw == c.raw
    ensures c.activeKey.Some? ==> Rebuild(c, None).activeKey == c.activeKey == Rebuild(c, None).view.jobKey
  {
    hide ViewOf, Settle;
    var (derived, active) := DeriveKey(c);
    var (source, _, _) := Settle(c, derived);
    JobTracking.ViewShowsKey(c, derived, source);
  }

  /**
   * A report of another print makes the broker forget: it ends in the state a new broker would reach by that report,
   * one that holds only the submission still pending or, when the report is of the pending submission, only what
   * was registered for it. Nothing else that was accumulated or shown can be told from it.
   */
  lemma {:induction false} NewPrintForgets(c: Core, report: Report)
    requires NewPrint(c.raw, report)
    ensures var blank := Initial(c.fileAvailable).(pending := c.pending);
            var kept := blank.(sources := c.sources, usageReferences := c.usageReferences, activeKey := c.activeKey);
            var after := AfterReport(c, report);
            && after.raw == report
            && after == AfterReport(if Awaited(c, report) then kept else blank, report)
            && (Awaited(c, report) && c.activeKey.Some? ==> after.activeKey == c.activeKey == after.view.jobKey)
  {
    BoundaryIff(c.raw, report);
    BoundaryIff(map[], report);
    NamesAre(report);
    MergeIntoNothing(report);
    JobTracking.NothingToSplit(report);
    hide Rebuild, Boundary, NewPrint, NameOf, JobName, Merge;
    var blank := Initial(c.fileAvailable).(pending := c.pending);
    var kept := blank.(sources := c.sources, usageReferences := c.usageReferences, activeKey := c.activeKey);
    assert Reset(c, report) == if Awaited(c, report) then kept else blank;
    RebuildKeepsRaw((if Awaited(c, report) then kept else blank).(raw := report));
  }

  /** Any other report is merged into what was accumulated, and an active job keeps its key. */
  lemma {:induction false} SamePrintAccumulates(c: Core, report: Report)
    requires !NewPrint(c.raw, report)
    ensures var after := AfterReport(c, report);
            && after.raw == Merge(c.raw, report)
            && (c.activeKey.Some? ==> after.activeKey == c.activeKey == after.view.jobKey)
  {
    BoundaryIff(c.raw, report);
    hide Rebuild, Boundary, NewPrint, Merge;
    RebuildKeepsRaw(c.(raw := Merge(c.raw, report)));
  }

  /** A print that starts after one ended, with no submission pending, carries nothing of the one before. */
  lemma {:induction false} NextPrintIsFresh(c: Core, report: Report)
    requires c.pending.None? && Over(c.raw) && Active(report)
    ensures AfterReport(c, report) == AfterReport(Initial(c.fileAvailable), report)
  {
    hide AfterReport;
    NewPrintForgets(c, report);
    assert Initial(c.fileAvailable).(pending := None) == Initial(c.fileAvailable);
  }
}
