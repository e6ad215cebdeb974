/** One slice job from the queue to a terminal status: slicer event stream, upload, notification. */
module SliceJobs {
  import opened Prelude

  datatype Status = Queued | Slicing | Uploading | Ready | Failed | Cancelled

  predicate IsTerminal(s: Status) {
    s in {Ready, Failed, Cancelled}
  }

  // The documented life of a job.
  predicate Edge(a: Status, b: Status) {
    match a
    case Queued => b in {Slicing, Cancelled}
    case Slicing => b in {Uploading, Ready, Failed, Cancelled}
    case Uploading => b in {Ready, Failed, Cancelled}
    case _ => false
  }

  datatype JobError =
    | SlicingFailed(detail: string)
    | NoOutput
    | TrayUnavailable(detail: string)
    | CloudFailed(detail: string)
    | UploadFailed(detail: string)
    | InterruptedByRestart

  type JobId = string

  datatype Job = Job(
    id: JobId,
    autoPrint: bool,
    printerId: string,
    status: Status,
    progress: int,
    phase: Option<string>,
    printed: bool,
    output: Option<Bytes>,
    error: Option<JobError>)

  datatype Notice = ReadyNotice | PrintingNotice | FailedNotice

  // ---------------------------------------------------------------------
  // What happens to a running job

  datatype Percent = Missing | Number(n: int) | Unusable | Infinite

  // Payloads are parsed already; a result without usable bytes is Result(None).
  datatype SlicerEvent =
    | Progress(percent: Percent, loggedPercent: Option<int>, loggedMessage: string)
    | Phase(text: string)
    | Result(blob: Option<Bytes>)
    | Trouble(detail: string)
    | Done
    | Other
    | StreamBreaks(detail: string)
    | StreamEnds

  // One turn of the event loop: cancellation is looked at before the event.
  datatype Turn = Turn(cancelled: bool, event: SlicerEvent)

  datatype UploadStep = Chunk(size: nat, cancelled: bool) | Poll

  datatype Transport =
    | Cloud(failure: Option<string>)
    | Lan(steps: seq<UploadStep>, failure: Option<string>)

  datatype Circumstances = Circumstances(
    cancelledInQueue: bool,
    turns: seq<Turn>,
    printerIdle: bool,
    trayError: Option<string>,
    transport: Transport)

  function Clamp(n: int): int {
    Max(0, Min(100, n))
  }

  predicate Breaks(e: SlicerEvent) {
    || e.Trouble? || e.StreamBreaks?
    || (e.Result? && e.blob.None?)
    || (e.Progress? && e.percent == Infinite)
  }

  function BreakDetail(e: SlicerEvent): string
    requires Breaks(e)
  {
    match e
    case Trouble(detail) => detail
    case StreamBreaks(detail) => detail
    case Result(_) => "result event missing file_base64"
    case Progress(_, _, _) => "cannot convert float infinity to integer"
  }

  predicate Ends(e: SlicerEvent) {
    e.Done? || e.StreamEnds?
  }

  function AfterEvent(job: Job, e: SlicerEvent): Job {
    match e
    case Progress(Number(n), _, _) => job.(progress := Clamp(n))
    case Progress(Missing, logged, message) =>
      job.(progress := if logged.Some? then Clamp(logged.value) else job.progress,
           phase := if message != "" then Some(message) else job.phase)
    case Phase(text) => job.(phase := if text != "" then Some(text) else job.phase)
    case _ => job
  }

  datatype SliceEnd = Interrupted | Broken(detail: string) | Finished(blob: Option<Bytes>)

  // steps: the job after each turn that was played to its end.
  datatype SliceRun = SliceRun(steps: seq<Job>, end: SliceEnd)

  function Slice(job: Job, turns: seq<Turn>, blob: Option<Bytes>): SliceRun
    decreases turns
  {
    if turns == [] then SliceRun([], Finished(blob))
    else if turns[0].cancelled then SliceRun([], Interrupted)
    else if Breaks(turns[0].event) then SliceRun([], Broken(BreakDetail(turns[0].event)))
    else if Ends(turns[0].event) then SliceRun([], Finished(blob))
    else
      var e := turns[0].event;
      var next := AfterEvent(job, e);
      var rest := Slice(next, turns[1..], if e.Result? then e.blob else blob);
      SliceRun([next] + rest.steps, rest.end)
  }

  function Last(job: Job, steps: seq<Job>): Job {
    if steps == [] then job else steps[|steps| - 1]
  }

  // Percentage of the upload, kept below 100 until it is known to have succeeded.
  function Uploaded(job: Job, sent: nat, total: nat): Job {
    if total == 0 then job else job.(progress := Min(99, sent * 100 / total))
  }

  datatype UploadRun = UploadRun(steps: seq<Job>, aborted: bool)

  function Upload(job: Job, steps: seq<UploadStep>, sent: nat, total: nat, aborted: bool): UploadRun
    decreases steps
  {
    if steps == [] then UploadRun([], aborted)
    else match steps[0]
      case Poll =>
        var next := Uploaded(job, sent, total);
        var rest := Upload(next, steps[1..], sent, total, aborted);
        UploadRun([next] + rest.steps, rest.aborted)
      case Chunk(size, cancelled) =>
        if aborted || cancelled then Upload(job, steps[1..], sent, total, true)
        else Upload(job, steps[1..], sent + size, total, false)
  }

  // Every version of the job that others can see, and the notifications sent.
  datatype JobRun = JobRun(steps: seq<Job>, notices: seq<Notice>)

  function Failing(job: Job, error: JobError): JobRun {
    JobRun([job.(error := Some(error), phase := None, status := Failed)], [FailedNotice])
  }

  function Before(steps: seq<Job>, run: JobRun): JobRun {
    JobRun(steps + run.steps, run.notices)
  }

  function Printing(job: Job): JobRun {
    JobRun([job.(progress := 100, phase := None, printed := true, status := Ready)], [PrintingNotice])
  }

  function AutoPrint(job: Job, blob: Bytes, c: Circumstances): JobRun {
    if c.trayError.Some? then
      JobRun([job.(error := Some(TrayUnavailable(c.trayError.value)), status := Ready, phase := None)], [ReadyNotice])
    else
      var uploading := job.(status := Uploading, phase := Some("uploading"));
      match c.transport
      case Cloud(failure) =>
        Before([uploading],
               if failure.Some? then Failing(uploading, CloudFailed(failure.value)) else Printing(uploading))
      case Lan(steps, failure) =>
        var upload := Upload(uploading, steps, 0, |blob|, false);
        var sent := Last(uploading, upload.steps);
        Before([uploading] + upload.steps,
          if upload.aborted then JobRun([sent.(status := Cancelled, phase := None)], [])
          else if failure.Some? then Failing(sent, UploadFailed(failure.value))
          else Printing(sent))
  }

  function Sliced(job: Job, blob: Bytes, c: Circumstances): JobRun {
    var done := job.(output := Some(blob), progress := 100, phase := None);
    if !job.autoPrint || job.printerId == "" || !c.printerIdle
    then JobRun([done.(status := Ready)], [ReadyNotice])
    else AutoPrint(done, blob, c)
  }

  function Run(job: Job, c: Circumstances): JobRun {
    if c.cancelledInQueue then JobRun([job.(status := Cancelled, phase := None)], [])
    else
      var slicing := job.(status := Slicing, phase := Some("slicing"));
      var slice := Slice(slicing, c.turns, None);
      var last := Last(slicing, slice.steps);
      Before([slicing] + slice.steps,
        match slice.end
        case Interrupted => JobRun([last.(status := Cancelled, phase := None)], [])
        case Broken(detail) => Failing(last, SlicingFailed(detail))
        case Finished(None) => Failing(last, NoOutput)
        case Finished(Some(blob)) => Sliced(last, blob, c))
  }

  // ---------------------------------------------------------------------
  // Properties of every run

  predicate Sound(job: Job) {
    && 0 <= job.progress <= 100
    && (job.status == Ready ==> job.output.Some? && job.progress == 100)
    && (job.printed ==> job.status == Ready)
  }

  // One visible change: an edge of the life cycle, or progress within a status that is not final.
  predicate Moves(a: Job, b: Job) {
    a.id == b.id && (Edge(a.status, b.status) || (a.status == b.status && !IsTerminal(a.status)))
  }

  // Starting from job, each step is one visible move to a sound job.
  predicate Path(job: Job, steps: seq<Job>)
    decreases steps
  {
    steps == [] || (Moves(job, steps[0]) && Sound(steps[0]) && Path(steps[0], steps[1..]))
  }

  lemma {:induction false} PathExtends(job: Job, a: seq<Job>, b: seq<Job>)
    requires Path(job, a) && Path(Last(job, a), b)
    ensures Path(job, a + b)
    ensures Last(job, a + b) == Last(Last(job, a), b)
    decreases a
  {
    hide Sound, Moves;
    if a == [] {
      assert a + b == b;
    } else {
      assert (a + b)[1..] == a[1..] + b;
      PathExtends(a[0], a[1..], b);
    }
  }

  lemma PathOfOne(job: Job, next: Job)
    requires Moves(job, next) && Sound(next)
    ensures Path(job, [next]) && Last(job, [next]) == next
  {}

  lemma {:induction false} SlicePath(job: Job, turns: seq<Turn>, blob: Option<Bytes>)
    requires Sound(job) && job.status == Slicing
    ensures var slice := Slice(job, turns, blob);
            && Path(job, slice.steps)
            && SameJob(job, Last(job, slice.steps))
            && Last(job, slice.steps).status == Slicing
    decreases turns
  {
    if turns != [] && !turns[0].cancelled && !Breaks(turns[0].event) && !Ends(turns[0].event) {
      var e := turns[0].event;
      var next := AfterEvent(job, e);
      var rest := Slice(next, turns[1..], if e.Result? then e.blob else blob);
      SlicePath(next, turns[1..], if e.Result? then e.blob else blob);
      PathOfOne(job, next);
      PathExtends(job, [next], rest.steps);
    }
  }

  // What slicing and uploading leave alone.
  predicate SameJob(a: Job, b: Job) {
    a.(status := b.status, progress := b.progress, phase := b.phase) == b
  }

  lemma {:induction false} UploadPath(job: Job, steps: seq<UploadStep>, sent: nat, total: nat, aborted: bool)
    requires Sound(job) && job.status == Uploading
    ensures var upload := Upload(job, steps, sent, total, aborted);
            && Path(job, upload.steps)
            && SameJob(job, Last(job, upload.steps))
            && Last(job, upload.steps).status == Uploading
    decreases steps
  {
    if steps != [] {
      match steps[0]
      case Poll =>
        var next := Uploaded(job, sent, total);
        assert total > 0 ==> sent * 100 / total >= 0;
        UploadPath(next, steps[1..], sent, total, aborted);
        PathOfOne(job, next);
        PathExtends(job, [next], Upload(next, steps[1..], sent, total, aborted).steps);
      case Chunk(size, cancelled) =>
        if aborted || cancelled {
          UploadPath(job, steps[1..], sent, total, true);
        } else {
          UploadPath(job, steps[1..], sent + size, total, false);
        }
    }
  }

  // The notifications a run may send, given how it ended.
  predicate Announced(job: Job, notices: seq<Notice>) {
    match job.status
    case Cancelled => notices == []
    case Failed => notices == [FailedNotice]
    case Ready => notices == [if job.printed then PrintingNotice else ReadyNotice]
    case _ => false
  }

  predicate Completes(job: Job, run: JobRun) {
    && Path(job, run.steps)
    && run.steps != []
    && IsTerminal(Last(job, run.steps).status)
    && Announced(Last(job, run.steps), run.notices)
  }

  lemma {:induction false} CompletesAfter(job: Job, steps: seq<Job>, run: JobRun)
    requires Path(job, steps) && Completes(Last(job, steps), run)
    ensures Completes(job, Before(steps, run))
  {
    hide Path, Announced;
    PathExtends(job, steps, run.steps);
  }

  predicate InProgress(job: Job) {
    job.status in {Slicing, Uploading} && Sound(job)
  }

  lemma FailingCompletes(job: Job, error: JobError)
    requires InProgress(job)
    ensures Completes(job, Failing(job, error))
  {
    PathOfOne(job, job.(error := Some(error), phase := None, status := Failed));
  }

  lemma CancellingCompletes(job: Job)
    requires InProgress(job)
    ensures Completes(job, JobRun([job.(status := Cancelled, phase := None)], []))
  {
    PathOfOne(job, job.(status := Cancelled, phase := None));
  }

  lemma PrintingCompletes(job: Job)
    requires InProgress(job) && job.output.Some?
    ensures Completes(job, Printing(job))
  {
    PathOfOne(job, job.(progress := 100, phase := None, printed := true, status := Ready));
  }

  lemma {:induction false} AutoPrintCompletes(job: Job, blob: Bytes, c: Circumstances)
    requires InProgress(job) && job.status == Slicing && job.progress == 100 && job.output == Some(blob)
    ensures Completes(job, AutoPrint(job, blob, c))
  {
    if c.trayError.Some? {
      PathOfOne(job, job.(error := Some(TrayUnavailable(c.trayError.value)), status := Ready, phase := None));
    } else {
      hide Path, Announced, Completes, Failing, Printing, Upload, Before;
      var uploading := job.(status := Uploading, phase := Some("uploading"));
      PathOfOne(job, uploading);
      match c.transport
      case Cloud(failure) =>
        if failure.Some? {
          FailingCompletes(uploading, CloudFailed(failure.value));
        } else {
          PrintingCompletes(uploading);
        }
        CompletesAfter(job, [uploading],
          if failure.Some? then Failing(uploading, CloudFailed(failure.value)) else Printing(uploading));
      case Lan(steps, failure) =>
        var upload := Upload(uploading, steps, 0, |blob|, false);
        UploadPath(uploading, steps, 0, |blob|, false);
        PathExtends(job, [uploading], upload.steps);
        var sent := Last(uploading, upload.steps);
        PathStaysSound(uploading, upload.steps);
        CancellingCompletes(sent);
        PrintingCompletes(sent);
        if failure.Some? {
          FailingCompletes(sent, UploadFailed(failure.value));
        }
        CompletesAfter(job, [uploading] + upload.steps,
          if upload.aborted then JobRun([sent.(status := Cancelled, phase := None)], [])
          else if failure.Some? then Failing(sent, UploadFailed(failure.value))
          else Printing(sent));
    }
  }

  lemma {:induction false} PathStaysSound(job: Job, steps: seq<Job>)
    requires Sound(job) && Path(job, steps)
    ensures Sound(Last(job, steps))
    decreases steps
  {
    hide Sound, Moves;
    if steps != [] {
      PathStaysSound(steps[0], steps[1..]);
    }
  }

  lemma {:induction false} SlicedCompletes(job: Job, blob: Bytes, c: Circumstances)
    requires InProgress(job) && job.status == Slicing
    ensures Completes(job, Sliced(job, blob, c))
  {
    var done := job.(output := Some(blob), progress := 100, phase := None);
    if job.autoPrint && job.printerId != "" && c.printerIdle {
      AutoPrintCompletes(done, blob, c);
    }
  }

  /**
   * Whatever the slicer, the user, the printer and the network do, a queued job follows the edges
   * of its life cycle to a terminal status; progress stays a percentage, READY comes with stored
   * output at 100, printed means READY; and exactly the notification of that outcome is sent, none
   * for a cancelled job.
   */
  lemma {:induction false} RunCompletes(job: Job, c: Circumstances)
    requires job.status == Queued && 0 <= job.progress <= 100 && !job.printed
    ensures Completes(job, Run(job, c))
  {
    if c.cancelledInQueue {
      PathOfOne(job, job.(status := Cancelled, phase := None));
    } else {
      hide Path, Announced, Completes, Failing, Sliced, Slice, Before;
      var slicing := job.(status := Slicing, phase := Some("slicing"));
      var slice := Slice(slicing, c.turns, None);
      SlicePath(slicing, c.turns, None);
      PathOfOne(job, slicing);
      PathExtends(job, [slicing], slice.steps);
      var last := Last(slicing, slice.steps);
      PathStaysSound(slicing, slice.steps);
      match slice.end
      case Interrupted =>
        CancellingCompletes(last);
        CompletesAfter(job, [slicing] + slice.steps, JobRun([last.(status := Cancelled, phase := None)], []));
      case Broken(detail) =>
        FailingCompletes(last, SlicingFailed(detail));
        CompletesAfter(job, [slicing] + slice.steps, Failing(last, SlicingFailed(detail)));
      case Finished(None) =>
        FailingCompletes(last, NoOutput);
        CompletesAfter(job, [slicing] + slice.steps, Failing(last, NoOutput));
      case Finished(Some(blob)) =>
        SlicedCompletes(last, blob, c);
        CompletesAfter(job, [slicing] + slice.steps, Sliced(last, blob, c));
    }
  }

  // ---------------------------------------------------------------------
  // Which outcome, read off the script

  // The first turn that is cancelled, breaks the stream or ends it.
  predicate StopsAt(turns: seq<Turn>, k: nat) {
    && k <= |turns|
    && (forall i | 0 <= i < k :: !turns[i].cancelled && !Breaks(turns[i].event) && !Ends(turns[i].event))
    && (k < |turns| ==> turns[k].cancelled || Breaks(turns[k].event) || Ends(turns[k].event))
  }

  function LastBlob(turns: seq<Turn>, before: Option<Bytes>): Option<Bytes> {
    if turns == [] then before
    else
      var e := turns[|turns| - 1].event;
      if e.Result? && e.blob.Some? then e.blob else LastBlob(turns[..|turns| - 1], before)
  }

  lemma {:induction false} LastBlobFromFront(turns: seq<Turn>, before: Option<Bytes>)
    requires turns != []
    ensures var e := turns[0].event;
            LastBlob(turns, before) == LastBlob(turns[1..], if e.Result? && e.blob.Some? then e.blob else before)
  {
    if |turns| > 1 {
      assert turns[1..][..|turns| - 2] == turns[..|turns| - 1][1..];
      LastBlobFromFront(turns[..|turns| - 1], before);
    }
  }

  /** Slicing ends as its first decisive turn says, with the last result received before it. */
  lemma {:induction false} SliceOutcome(job: Job, turns: seq<Turn>, blob: Option<Bytes>, k: nat)
    requires StopsAt(turns, k)
    ensures Slice(job, turns, blob).end
         == if k < |turns| && turns[k].cancelled then Interrupted
            else if k < |turns| && Breaks(turns[k].event) then Broken(BreakDetail(turns[k].event))
            else Finished(LastBlob(turns[..k], blob))
    decreases turns
  {
    hide AfterEvent;
    if k > 0 {
      var e := turns[0].event;
      LastBlobFromFront(turns[..k], blob);
      assert turns[..k][1..] == turns[1..][..k - 1];
      SliceOutcome(AfterEvent(job, e), turns[1..], if e.Result? then e.blob else blob, k - 1);
    }
  }

  predicate Aborts(steps: seq<UploadStep>) {
    exists i | 0 <= i < |steps| :: steps[i].Chunk? && steps[i].cancelled
  }

  lemma {:induction false} UploadOutcome(job: Job, steps: seq<UploadStep>, sent: nat, total: nat, aborted: bool)
    ensures Upload(job, steps, sent, total, aborted).aborted <==> aborted || Aborts(steps)
    decreases steps
  {
    if steps != [] {
      var later := steps[1..];
      assert Aborts(steps) <==> (steps[0].Chunk? && steps[0].cancelled) || Aborts(later) by {
        if Aborts(later) {
          var i :| 0 <= i < |later| && later[i].Chunk? && later[i].cancelled;
          assert steps[i + 1] == later[i];
        }
        if Aborts(steps) && !(steps[0].Chunk? && steps[0].cancelled) {
          var i :| 0 <= i < |steps| && steps[i].Chunk? && steps[i].cancelled;
          assert later[i - 1] == steps[i];
        }
      }
      match steps[0]
      case Poll => UploadOutcome(Uploaded(job, sent, total), later, sent, total, aborted);
      case Chunk(size, cancelled) =>
        if aborted || cancelled {
          UploadOutcome(job, later, sent, total, true);
        } else {
          UploadOutcome(job, later, sent + size, total, false);
        }
    }
  }

  // Bytes of the chunks handed over before any cancellation.
  function Counted(steps: seq<UploadStep>): nat {
    if steps == [] then 0
    else match steps[0]
      case Poll => Counted(steps[1..])
      case Chunk(size, cancelled) => if cancelled then 0 else size + Counted(steps[1..])
  }

  lemma {:induction false} NothingPolled(job: Job, steps: seq<UploadStep>, sent: nat, total: nat, aborted: bool)
    requires forall i | 0 <= i < |steps| :: !steps[i].Poll?
    ensures Upload(job, steps, sent, total, aborted).steps == []
    decreases steps
  {
    if steps != [] {
      var size := if steps[0].cancelled || aborted then 0 else steps[0].size;
      NothingPolled(job, steps[1..], sent + size, total, aborted || steps[0].cancelled);
    }
  }

  /**
   * The progress last shown for an upload is the share of the file handed over when it was last looked
   * at, before any cancellation, and never more than 99.
   */
  lemma {:induction false} UploadProgress(job: Job, steps: seq<UploadStep>, sent: nat, total: nat, aborted: bool,
                                          k: nat)
    requires k < |steps| && steps[k].Poll? && forall i | k < i < |steps| :: !steps[i].Poll?
    ensures var upload := Upload(job, steps, sent, total, aborted);
            && upload.steps != []
            && Last(job, upload.steps).progress ==
                 if total == 0 then job.progress
                 else Min(99, (sent + if aborted then 0 else Counted(steps[..k])) * 100 / total)
    decreases steps
  {
    var later := steps[1..];
    if k == 0 {
      NothingPolled(Uploaded(job, sent, total), later, sent, total, aborted);
    } else {
      assert later[k - 1] == steps[k];
      assert steps[..k][1..] == later[..k - 1];
      match steps[0]
      case Poll =>
        UploadProgress(Uploaded(job, sent, total), later, sent, total, aborted, k - 1);
      case Chunk(size, cancelled) =>
        if aborted || cancelled {
          UploadProgress(job, later, sent, total, true, k - 1);
        } else {
          UploadProgress(job, later, sent + size, total, false, k - 1);
        }
    }
  }

  predicate Delivers(t: Transport) {
    match t
    case Cloud(failure) => failure.None?
    case Lan(steps, failure) => !Aborts(steps) && failure.None?
  }

  // The job is handed to the printer once sliced.
  predicate HandsOver(job: Job, c: Circumstances) {
    job.autoPrint && job.printerId != "" && c.printerIdle && c.trayError.None?
  }

  // How slicing ends for this script: k is its first decisive turn.
  function EndAt(turns: seq<Turn>, k: nat): SliceEnd
    requires StopsAt(turns, k)
  {
    if k < |turns| && turns[k].cancelled then Interrupted
    else if k < |turns| && Breaks(turns[k].event) then Broken(BreakDetail(turns[k].event))
    else Finished(LastBlob(turns[..k], None))
  }

  /** The final status, the stored output and the printed flag, as functions of what happened. */
  lemma {:induction false} RunOutcome(job: Job, c: Circumstances, k: nat)
    requires job.status == Queued && 0 <= job.progress <= 100 && !job.printed
    requires StopsAt(c.turns, k)
    ensures var final, end := Last(job, Run(job, c).steps), EndAt(c.turns, k);
            var sliced := !c.cancelledInQueue && end.Finished? && end.blob.Some?;
            && (final.status == Cancelled <==>
                  || c.cancelledInQueue || end == Interrupted
                  || (sliced && HandsOver(job, c) && c.transport.Lan? && Aborts(c.transport.steps)))
            && (final.status == Ready <==> sliced && (HandsOver(job, c) ==> Delivers(c.transport)))
            && (final.printed <==> sliced && HandsOver(job, c) && Delivers(c.transport))
            && (sliced ==> final.output == end.blob)
  {
    if !c.cancelledInQueue {
      hide Path, Slice, StopsAt, Sliced, Aborts, LastBlob, HandsOver, Delivers, Failing, SameJob;
      var slicing := job.(status := Slicing, phase := Some("slicing"));
      var slice := Slice(slicing, c.turns, None);
      assert slice.end == EndAt(c.turns, k) by { SliceOutcome(slicing, c.turns, None, k); }
      SlicePath(slicing, c.turns, None);
      PathStaysSound(slicing, slice.steps);
      var steps, last := [slicing] + slice.steps, Last(slicing, slice.steps);
      HandOverKept(job, last, c);
      match slice.end
      case Interrupted =>
        LastOfBefore(job, steps, JobRun([last.(status := Cancelled, phase := None)], []));
      case Broken(detail) =>
        FailingEndsFailed(last, SlicingFailed(detail));
        LastOfBefore(job, steps, Failing(last, SlicingFailed(detail)));
      case Finished(None) =>
        FailingEndsFailed(last, NoOutput);
        LastOfBefore(job, steps, Failing(last, NoOutput));
      case Finished(Some(blob)) =>
        SlicedOutcome(last, blob, c);
        LastOfBefore(job, steps, Sliced(last, blob, c));
    }
  }

  lemma HandOverKept(job: Job, last: Job, c: Circumstances)
    requires SameJob(job.(status := Slicing, phase := Some("slicing")), last)
    ensures HandsOver(last, c) == HandsOver(job, c) && job.printed == last.printed
  {}

  lemma FailingEndsFailed(job: Job, error: JobError)
    ensures Failing(job, error).steps != []
    ensures var final := Failing(job, error).steps[|Failing(job, error).steps| - 1];
            final.status == Failed && final.printed == job.printed
  {}

  lemma LastOfBefore(job: Job, steps: seq<Job>, run: JobRun)
    requires run.steps != []
    ensures Last(job, Before(steps, run).steps) == Last(job, run.steps) == run.steps[|run.steps| - 1]
  {}

  lemma SlicedOutcome(job: Job, blob: Bytes, c: Circumstances)
    requires job.status == Slicing && Sound(job)
    ensures var run := Sliced(job, blob, c);
            && run.steps != []
            && var final := run.steps[|run.steps| - 1];
            && (final.status == Cancelled <==> HandsOver(job, c) && c.transport.Lan? && Aborts(c.transport.steps))
            && (final.status == Ready <==> (HandsOver(job, c) ==> Delivers(c.transport)))
            && (final.printed <==> HandsOver(job, c) && Delivers(c.transport))
            && final.output == Some(blob)
  {
    hide Aborts;
    var done := job.(output := Some(blob), progress := 100, phase := None);
    if HandsOver(job, c) && c.transport.Lan? {
      var uploading := done.(status := Uploading, phase := Some("uploading"));
      UploadOutcome(uploading, c.transport.steps, 0, |blob|, false);
      UploadPath(uploading, c.transport.steps, 0, |blob|, false);
    }
  }

  // ---------------------------------------------------------------------

  method SliceStream(entry: Job, turns: seq<Turn>) returns (job: Job, steps: seq<Job>, end: SliceEnd)
    ensures SliceRun(steps, end) == Slice(entry, turns, None)
    ensures job == Last(entry, steps)
  {
    hide AfterEvent, Breaks, Ends;
    job, steps := entry, [];
    var resultBytes: Option<Bytes> := None;
    var i := 0;
    while i < |turns|
      invariant i <= |turns|
      invariant job == Last(entry, steps)
      invariant var rest := Slice(job, turns[i..], resultBytes);
                Slice(entry, turns, None) == SliceRun(steps + rest.steps, rest.end)
    {
      var turn := turns[i];
      assert turns[i..][1..] == turns[i + 1..];
      if turn.cancelled {
        return job, steps, Interrupted;
      }
      if Breaks(turn.event) {
        return job, steps, Broken(BreakDetail(turn.event));
      }
      if Ends(turn.event) {
        break;
      }
      if turn.event.Result? {
        resultBytes := turn.event.blob;
      }
      job := AfterEvent(job, turn.event);
      ghost var rest := Slice(job, turns[i + 1..], resultBytes);
      assert steps + ([job] + rest.steps) == (steps + [job]) + rest.steps;
      steps := steps + [job];
      i := i + 1;
    }
    end := Finished(resultBytes);
  }

  method UploadFile(entry: Job, script: seq<UploadStep>, total: nat) returns (job: Job, steps: seq<Job>, aborted: bool)
    ensures UploadRun(steps, aborted) == Upload(entry, script, 0, total, false)
    ensures job == Last(entry, steps)
  {
    hide Uploaded;
    job, steps, aborted := entry, [], false;
    var bytesSent := 0;
    for i := 0 to |script|
      invariant job == Last(entry, steps)
      invariant var rest := Upload(job, script[i..], bytesSent, total, aborted);
                Upload(entry, script, 0, total, false) == UploadRun(steps + rest.steps, rest.aborted)
    {
      assert script[i..][1..] == script[i + 1..];
      match script[i] {
        case Poll =>
          job := Uploaded(job, bytesSent, total);
          ghost var rest := Upload(job, script[i + 1..], bytesSent, total, aborted);
          assert steps + ([job] + rest.steps) == (steps + [job]) + rest.steps;
          steps := steps + [job];
        case Chunk(size, cancelled) =>
          if aborted || cancelled {
            aborted := true;
          } else {
            bytesSent := bytesSent + size;
          }
      }
    }
  }

  method AutoPrintJob(entry: Job, blob: Bytes, c: Circumstances)
      returns (job: Job, steps: seq<Job>, notices: seq<Notice>)
    ensures JobRun(steps, notices) == AutoPrint(entry, blob, c)
    ensures steps != [] && job == steps[|steps| - 1]
  {
    job := entry;
    if c.trayError.Some? {
      job := job.(error := Some(TrayUnavailable(c.trayError.value)), status := Ready, phase := None);
      return job, [job], [ReadyNotice];
    }
    job := job.(status := Uploading, phase := Some("uploading"));
    steps := [job];
    match c.transport {
      case Cloud(failure) =>
        if failure.Some? {
          job := job.(error := Some(CloudFailed(failure.value)), phase := None, status := Failed);
          return job, steps + [job], [FailedNotice];
        }
      case Lan(script, failure) =>
        var seen, aborted;
        job, seen, aborted := UploadFile(job, script, |blob|);
        steps := steps + seen;
        if aborted {
          job := job.(status := Cancelled, phase := None);
          return job, steps + [job], [];
        }
        if failure.Some? {
          job := job.(error := Some(UploadFailed(failure.value)), phase := None, status := Failed);
          return job, steps + [job], [FailedNotice];
        }
    }
    job := job.(progress := 100, phase := None, printed := true, status := Ready);
    return job, steps + [job], [PrintingNotice];
  }

  /** The worker's body: one job, its slicer stream and its upload, played step by step. */
  method RunJob(entry: Job, c: Circumstances) returns (job: Job, steps: seq<Job>, notices: seq<Notice>)
    ensures JobRun(steps, notices) == Run(entry, c)
    ensures job == Last(entry, steps)
  {
    job := entry;
    if c.cancelledInQueue {
      job := job.(status := Cancelled, phase := None);
      return job, [job], [];
    }
    job := job.(status := Slicing, phase := Some("slicing"));
    steps := [job];
    var seen, end;
    job, seen, end := SliceStream(job, c.turns);
    steps := steps + seen;
    match end {
      case Interrupted =>
        job := job.(status := Cancelled, phase := None);
        return job, steps + [job], [];
      case Broken(detail) =>
        job := job.(error := Some(SlicingFailed(detail)), phase := None, status := Failed);
        return job, steps + [job], [FailedNotice];
      case Finished(None) =>
        job := job.(error := Some(NoOutput), phase := None, status := Failed);
        return job, steps + [job], [FailedNotice];
      case Finished(Some(blob)) =>
        job := job.(output := Some(blob), progress := 100, phase := None);
        if !job.autoPrint || job.printerId == "" || !c.printerIdle {
          job := job.(status := Ready);
          return job, steps + [job], [ReadyNotice];
        }
        var more: seq<Job>;
        job, more, notices := AutoPrintJob(job, blob, c);
        steps := steps + more;
    }
  }
}
