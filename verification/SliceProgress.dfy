/** What a slice job shows while it runs and how it ends, on the slicer's events and the circumstances themselves. */
module SliceProgress {
  import opened Prelude
  import opened SliceJobs

  // What one turn of the event loop decides about the stream.
  datatype Decision = GoesOn | Stops | Fails(detail: string) | Ends

  function DecisionOf(t: Turn): Decision {
    if t.cancelled then Stops
    else match t.event
      case Trouble(detail) => Fails(detail)
      case StreamBreaks(detail) => Fails(detail)
      case Result(None) => Fails("result event missing file_base64")
      case Progress(Infinite, _, _) => Fails("cannot convert float infinity to integer")
      case Done => Ends
      case StreamEnds => Ends
      case _ => GoesOn
  }

  predicate FirstDecision(turns: seq<Turn>, k: nat) {
    && k <= |turns|
    && (forall i | 0 <= i < k :: DecisionOf(turns[i]) == GoesOn)
    && (k < |turns| ==> DecisionOf(turns[k]) != GoesOn)
  }

  // The percentage an event tells: its own, or the one logged with an event that has none.
  function Told(e: SlicerEvent): Option<int> {
    match e
    case Progress(Number(n), _, _) => Some(n)
    case Progress(Missing, logged, _) => logged
    case _ => None
  }

  function Said(e: SlicerEvent): string {
    match e
    case Progress(Missing, _, message) => message
    case Phase(text) => text
    case _ => ""
  }

  // The last percentage told, brought into 0 to 100.
  function LastPercent(turns: seq<Turn>, before: int): int {
    if turns == [] then before
    else
      match Told(turns[|turns| - 1].event)
      case None => LastPercent(turns[..|turns| - 1], before)
      case Some(n) => if n < 0 then 0 else if n > 100 then 100 else n
  }

  function LastMessage(turns: seq<Turn>, before: Option<string>): Option<string> {
    if turns == [] then before
    else
      var text := Said(turns[|turns| - 1].event);
      if text != "" then Some(text) else LastMessage(turns[..|turns| - 1], before)
  }

  // The job after some turns that decided nothing.
  function Shown(job: Job, turns: seq<Turn>): Job {
    job.(progress := LastPercent(turns, job.progress), phase := LastMessage(turns, job.phase))
  }

  lemma {:induction false} ShownFromFront(job: Job, turns: seq<Turn>)
    requires turns != [] && DecisionOf(turns[0]) == GoesOn
    ensures Shown(job, turns) == Shown(AfterEvent(job, turns[0].event), turns[1..])
  {
    if |turns| > 1 {
      assert turns[1..][..|turns| - 2] == turns[..|turns| - 1][1..];
      ShownFromFront(job, turns[..|turns| - 1]);
    } else {
      assert turns[..0] == [] && turns[1..] == [];
    }
  }

  lemma DecisionsAre(t: Turn)
    ensures DecisionOf(t) == GoesOn <==> !t.cancelled && !Breaks(t.event) && !SliceJobs.Ends(t.event)
    ensures DecisionOf(t) == Stops <==> t.cancelled
    ensures DecisionOf(t).Fails? <==> !t.cancelled && Breaks(t.event)
    ensures DecisionOf(t).Fails? ==> DecisionOf(t).detail == BreakDetail(t.event)
  {}

  /**
   * After every turn that decides nothing, the job shows the last percentage the slicer told, within 0 to 100, and
   * its last message; the rest of the job is as it was.
   */
  lemma {:induction false} SlicingShows(job: Job, turns: seq<Turn>, blob: Option<Bytes>, k: nat)
    requires k <= |turns| && forall i | 0 <= i < k :: DecisionOf(turns[i]) == GoesOn
    ensures var steps := Slice(job, turns, blob).steps;
            && |steps| >= k
            && (k > 0 ==> steps[k - 1] == Shown(job, turns[..k]))
            && (FirstDecision(turns, k) ==> |steps| == k)
    decreases turns
  {
    hide AfterEvent, Shown, DecisionOf;
    if turns != [] {
      DecisionsAre(turns[0]);
    }
    if k > 0 {
      var e := turns[0].event;
      var next := AfterEvent(job, e);
      var later := turns[1..];
      forall i | 0 <= i < k - 1 ensures DecisionOf(later[i]) == GoesOn {
        assert later[i] == turns[i + 1];
      }
      assert FirstDecision(turns, k) ==> FirstDecision(later, k - 1);
      SlicingShows(next, later, if e.Result? then e.blob else blob, k - 1);
      ShownFromFront(job, turns[..k]);
      assert turns[..k][1..] == later[..k - 1];
      if k == 1 {
        ShownOfNothing(next);
        assert later[..0] == [];
      }
    }
  }

  lemma ShownOfNothing(job: Job)
    ensures Shown(job, []) == job
  {}

  // How the transport of a sliced file ends.
  predicate Stopped(t: Transport) {
    t.Lan? && exists i | 0 <= i < |t.steps| :: t.steps[i].Chunk? && t.steps[i].cancelled
  }

  // What a run ends with: the status, the error that explains it, and the notification.
  datatype Outcome = Outcome(status: Status, error: Option<JobError>, notices: seq<Notice>)

  // How it ends once the slicer has delivered a file.
  function SlicedOutcomeOf(job: Job, c: Circumstances): Outcome {
    if !job.autoPrint || job.printerId == "" || !c.printerIdle then Outcome(Ready, job.error, [ReadyNotice])
    else if c.trayError.Some? then Outcome(Ready, Some(TrayUnavailable(c.trayError.value)), [ReadyNotice])
    else if Stopped(c.transport) then Outcome(Cancelled, job.error, [])
    else if c.transport.failure.Some? then
      var detail := c.transport.failure.value;
      Outcome(Failed, Some(if c.transport.Cloud? then CloudFailed(detail) else UploadFailed(detail)), [FailedNotice])
    else Outcome(Ready, job.error, [PrintingNotice])
  }

  function OutcomeOf(job: Job, c: Circumstances, k: nat): Outcome
    requires FirstDecision(c.turns, k)
  {
    var decision := if k < |c.turns| then DecisionOf(c.turns[k]) else Ends;
    if c.cancelledInQueue || decision == Stops then Outcome(Cancelled, job.error, [])
    else if decision.Fails? then Outcome(Failed, Some(SlicingFailed(decision.detail)), [FailedNotice])
    else if LastBlob(c.turns[..k], None).None? then Outcome(Failed, Some(NoOutput), [FailedNotice])
    else SlicedOutcomeOf(job, c)
  }

  function Ending(run: JobRun): Outcome
    requires run.steps != []
  {
    var final := run.steps[|run.steps| - 1];
    Outcome(final.status, final.error, run.notices)
  }

  lemma StopsAtFirstDecision(turns: seq<Turn>, k: nat)
    requires FirstDecision(turns, k)
    ensures StopsAt(turns, k)
    ensures k < |turns| ==>
              && (turns[k].cancelled <==> DecisionOf(turns[k]) == Stops)
              && (DecisionOf(turns[k]).Fails? <==> !turns[k].cancelled && Breaks(turns[k].event))
              && (DecisionOf(turns[k]).Fails? ==> DecisionOf(turns[k]).detail == BreakDetail(turns[k].event))
  {
    hide DecisionOf;
    forall i | 0 <= i < |turns|
      ensures DecisionOf(turns[i]) == GoesOn <==>
                !turns[i].cancelled && !Breaks(turns[i].event) && !SliceJobs.Ends(turns[i].event)
    {
      DecisionsAre(turns[i]);
    }
    if k < |turns| {
      DecisionsAre(turns[k]);
    }
  }

  lemma {:induction false} SlicedEnds(job: Job, blob: Bytes, c: Circumstances)
    ensures Sliced(job, blob, c).steps != []
    ensures Ending(Sliced(job, blob, c)) == SlicedOutcomeOf(job, c)
    ensures var run := Sliced(job, blob, c); run.steps[|run.steps| - 1].phase.None?
  {
    var done := job.(output := Some(blob), progress := 100, phase := None);
    if job.autoPrint && job.printerId != "" && c.printerIdle && c.trayError.None? && c.transport.Lan? {
      var uploading := done.(status := Uploading, phase := Some("uploading"));
      UploadOutcome(uploading, c.transport.steps, 0, |blob|, false);
      UploadLeavesError(uploading, c.transport.steps, 0, |blob|, false);
    }
  }

  lemma {:induction false} UploadLeavesError(job: Job, steps: seq<UploadStep>, sent: nat, total: nat, aborted: bool)
    ensures Last(job, Upload(job, steps, sent, total, aborted).steps).error == job.error
    decreases steps
  {
    if steps != [] {
      match steps[0]
      case Poll => UploadLeavesError(Uploaded(job, sent, total), steps[1..], sent, total, aborted);
      case Chunk(size, cancelled) =>
        if aborted || cancelled {
          UploadLeavesError(job, steps[1..], sent, total, true);
        } else {
          UploadLeavesError(job, steps[1..], sent + size, total, false);
        }
    }
  }

  // Slicing, up to its first decisive turn.
  lemma {:induction false} SlicingSteps(slicing: Job, turns: seq<Turn>, k: nat)
    requires FirstDecision(turns, k)
    ensures var slice := Slice(slicing, turns, None);
            && slice.end == EndAtDecision(turns, k)
            && |slice.steps| == k
            && (forall i | 1 <= i <= k :: slice.steps[i - 1] == Shown(slicing, turns[..i]))
            && Last(slicing, slice.steps).(progress := slicing.progress, phase := slicing.phase) == slicing
  {
    hide Slice, StopsAt, Shown, AfterEvent, Breaks, DecisionOf, LastBlob;
    StopsAtFirstDecision(turns, k);
    SliceOutcome(slicing, turns, None, k);
    SlicingShows(slicing, turns, None, k);
    forall i | 1 <= i <= k ensures Slice(slicing, turns, None).steps[i - 1] == Shown(slicing, turns[..i]) {
      SlicingShows(slicing, turns, None, i);
    }
    if k > 0 {
      ShownKeeps(slicing, turns[..k]);
    }
  }

  function EndAtDecision(turns: seq<Turn>, k: nat): SliceEnd
    requires FirstDecision(turns, k)
  {
    var decision := if k < |turns| then DecisionOf(turns[k]) else Ends;
    match decision
    case Stops => Interrupted
    case Fails(detail) => Broken(detail)
    case _ => Finished(LastBlob(turns[..k], None))
  }

  // What a run does once slicing has ended.
  lemma {:induction false} RunEnds(job: Job, c: Circumstances, k: nat)
    requires FirstDecision(c.turns, k) && !c.cancelledInQueue
    ensures Run(job, c).steps != [] && Ending(Run(job, c)) == OutcomeOf(job, c, k)
    ensures var run := Run(job, c); run.steps[|run.steps| - 1].phase.None?
  {
    hide Slice, Sliced, LastBlob, SlicedOutcomeOf, DecisionOf, FirstDecision;
    var slicing := job.(status := Slicing, phase := Some("slicing"));
    SlicingSteps(slicing, c.turns, k);
    var slice := Slice(slicing, c.turns, None);
    var last := Last(slicing, slice.steps);
    match slice.end
    case Finished(Some(blob)) =>
      SlicedEnds(last, blob, c);
      OutcomeReads(job, last, c);
    case _ =>
  }

  /**
   * A whole run: it first shows the job slicing, then the slicer's progress turn by turn, and it ends with the
   * status, the error and the notification that the first decisive turn, the file delivered and the printer call
   * for, and with no phase.
   */
  lemma {:induction false} RunShowsAndEnds(job: Job, c: Circumstances, k: nat)
    requires FirstDecision(c.turns, k)
    ensures var run := Run(job, c);
            var slicing := job.(status := Slicing, phase := Some("slicing"));
            && run.steps != []
            && Ending(run) == OutcomeOf(job, c, k)
            && run.steps[|run.steps| - 1].phase.None?
            && (!c.cancelledInQueue ==>
                  && |run.steps| > k + 1 && run.steps[0] == slicing
                  && forall i | 1 <= i <= k :: run.steps[i] == Shown(slicing, c.turns[..i]))
  {
    if c.cancelledInQueue {
      assert Run(job, c).steps == [job.(status := Cancelled, phase := None)];
    } else {
      RunEnds(job, c, k);
      hide Slice, Sliced, Shown, FirstDecision, OutcomeOf, Ending, Failing;
      var slicing := job.(status := Slicing, phase := Some("slicing"));
      SlicingSteps(slicing, c.turns, k);
      RunBegins(job, c);
    }
  }

  // The visible versions of a run begin with those of its slicing.
  lemma {:induction false} RunBegins(job: Job, c: Circumstances)
    requires !c.cancelledInQueue
    ensures var slicing := job.(status := Slicing, phase := Some("slicing"));
            var shown := [slicing] + Slice(slicing, c.turns, None).steps;
            shown < Run(job, c).steps
  {
    hide Slice;
    var slicing := job.(status := Slicing, phase := Some("slicing"));
    var slice := Slice(slicing, c.turns, None);
    if slice.end.Finished? && slice.end.blob.Some? {
      SlicedEnds(Last(slicing, slice.steps), slice.end.blob.value, c);
    }
  }

  lemma ShownKeeps(job: Job, turns: seq<Turn>)
    ensures Shown(job, turns).(progress := job.progress, phase := job.phase) == job
  {}

  lemma OutcomeReads(job: Job, last: Job, c: Circumstances)
    requires job.autoPrint == last.autoPrint && job.printerId == last.printerId && job.error == last.error
    ensures SlicedOutcomeOf(job, c) == SlicedOutcomeOf(last, c)
  {}
}
