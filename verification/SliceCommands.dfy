/** What submitting, cancelling, starting and stopping do to the slice-job manager, read off the commands of a run. */
module SliceCommands {
  import opened Prelude
  import opened SliceJobs
  import opened SliceQueue

  // ---------------------------------------------------------------------
  // Cancellation

  // Cancelled after its submission, by the same process.
  predicate CancelledSince(steps: seq<Step>, id: JobId) {
    steps != [] &&
    match steps[|steps| - 1]
    case Cancel(other) => other == id || CancelledSince(steps[..|steps| - 1], id)
    case Submit(job, _) => job.id != id && CancelledSince(steps[..|steps| - 1], id)
    case Crash => false
    case _ => CancelledSince(steps[..|steps| - 1], id)
  }

  // Started and neither stopped nor crashed since.
  predicate RunningSince(steps: seq<Step>) {
    steps != [] &&
    match steps[|steps| - 1]
    case Start(_) => true
    case Stop => false
    case Crash => false
    case _ => RunningSince(steps[..|steps| - 1])
  }

  // An unfinished job can be cancelled, and has been exactly if it was since its submission.
  predicate CancelOk(m: Manager, steps: seq<Step>, id: JobId) {
    && (id !in m.jobs ==> !CancelRequested(m, id))
    && (id in m.jobs && !IsTerminal(m.jobs[id].status) && m.up ==>
          id in m.cancelEvents && (CancelRequested(m, id) <==> CancelledSince(steps, id)))
    && (!m.up ==> !CancelledSince(steps, id))
    && (id !in m.jobs ==> id !in m.cancelEvents)
  }

  lemma {:induction false} RunAppend(m: Manager, steps: seq<Step>)
    requires CanRun(m, steps) && steps != []
    ensures var (front, last) := (steps[..|steps| - 1], steps[|steps| - 1]);
            && CanRun(m, front) && Enabled(RunSteps(m, front), last)
            && RunSteps(m, steps) == Next(RunSteps(m, front), last)
    decreases steps
  {
    hide Enabled, Next;
    if |steps| > 1 {
      assert steps[1..][..|steps| - 2] == steps[..|steps| - 1][1..];
      RunAppend(Next(m, steps[0]), steps[1..]);
    }
  }

  lemma SinceStep(steps: seq<Step>, id: JobId)
    requires steps != []
    ensures var last, before := steps[|steps| - 1], CancelledSince(steps[..|steps| - 1], id);
            CancelledSince(steps, id) <==>
              last != Crash && (last == Cancel(id) || (before && !(last.Submit? && last.job.id == id)))
    ensures var last, before := steps[|steps| - 1], RunningSince(steps[..|steps| - 1]);
            RunningSince(steps) <==> last.Start? || (before && last != Stop && last != Crash)
  {}

  lemma {:induction false} AdvanceCancelOk(m: Manager, steps: seq<Step>, w: nat, next: Job, id: JobId)
    requires steps != [] && steps[|steps| - 1] == Advance(w, next) && Enabled(m, Advance(w, next))
    requires CancelOk(m, steps[..|steps| - 1], id)
    ensures CancelOk(Next(m, Advance(w, next)), steps, id)
  {
    hide CancelledSince, Moves, IsTerminal;
    SinceStep(steps, id);
    MoveFacts(m.jobs[m.workers[w].id], next);
  }

  lemma {:induction false} RecoverCancelOk(m: Manager, steps: seq<Step>, id: JobId)
    requires steps != [] && steps[|steps| - 1] == Recover && Enabled(m, Recover)
    requires CancelOk(m, steps[..|steps| - 1], id)
    ensures CancelOk(Next(m, Recover), steps, id)
  {
    hide CancelledSince, Waiting, Recovered;
    SinceStep(steps, id);
    if id in m.jobs {
      RecoveredCases(m.jobs[id]);
    }
  }

  lemma {:induction false} CancelStep(m: Manager, steps: seq<Step>, id: JobId)
    requires steps != [] && Enabled(m, steps[|steps| - 1])
    requires CancelOk(m, steps[..|steps| - 1], id)
    ensures CancelOk(Next(m, steps[|steps| - 1]), steps, id)
  {
    match steps[|steps| - 1]
    case Advance(w, next) => AdvanceCancelOk(m, steps, w, next, id);
    case Recover => RecoverCancelOk(m, steps, id);
    case _ => hide CancelledSince, Moves, Waiting, Recovered; SinceStep(steps, id);
  }

  lemma RunningStep(m: Manager, steps: seq<Step>)
    requires steps != [] && Enabled(m, steps[|steps| - 1])
    requires m.running <==> RunningSince(steps[..|steps| - 1])
    ensures Next(m, steps[|steps| - 1]).running <==> RunningSince(steps)
  {
    hide Moves, Waiting, Recovered, CancelRequested, IsTerminal, StopMarks, IdleWorkers, RunningSince, AllExited,
      IsBusy;
    SinceStep(steps, "");
  }

  lemma {:induction false} CommandsTell(steps: seq<Step>, id: JobId)
    requires CanRun(Fresh, steps)
    ensures CancelOk(RunSteps(Fresh, steps), steps, id)
    ensures RunSteps(Fresh, steps).running <==> RunningSince(steps)
    decreases |steps|
  {
    hide Enabled, Next, CanRun;
    if steps == [] {
      NothingCommanded(id);
    } else {
      hide CancelOk;
      RunAppend(Fresh, steps);
      CommandsTell(steps[..|steps| - 1], id);
      CancelStep(RunSteps(Fresh, steps[..|steps| - 1]), steps, id);
      RunningStep(RunSteps(Fresh, steps[..|steps| - 1]), steps);
    }
  }

  lemma NothingCommanded(id: JobId)
    ensures RunSteps(Fresh, []) == Fresh && CancelOk(Fresh, [], id)
  {}

  /**
   * In every run: cancelling an unfinished job asks for its cancellation and changes nothing else, cancelling any
   * other changes nothing at all; and an unfinished job is asked to stop exactly if it was cancelled since its
   * submission and the last restart.
   */
  lemma {:induction false} CancellationTells(steps: seq<Step>, id: JobId)
    requires CanRun(Fresh, steps) && RunSteps(Fresh, steps).up
    ensures var m := RunSteps(Fresh, steps);
            var n := Next(m, Cancel(id));
            if id in m.jobs && !IsTerminal(m.jobs[id].status) then
              && (CancelRequested(m, id) <==> CancelledSince(steps, id))
              && CancelRequested(n, id) && n == m.(cancelEvents := n.cancelEvents)
              && forall other | other != id :: CancelRequested(n, other) == CancelRequested(m, other)
            else n == m
  {
    hide Next;
    CommandsTell(steps, id);
    CancelAlone(RunSteps(Fresh, steps), id);
  }

  lemma CancelAlone(m: Manager, id: JobId)
    requires m.up
    ensures Next(m, Cancel(id)) ==
            if id in m.jobs && !IsTerminal(m.jobs[id].status) && id in m.cancelEvents
            then m.(cancelEvents := m.cancelEvents[id := true]) else m
  {}

  // ---------------------------------------------------------------------
  // Starting and stopping

  /** Starting a running manager, and stopping one that does not run, changes nothing. */
  lemma {:induction false} StartsOnce(steps: seq<Step>, n: nat)
    requires CanRun(Fresh, steps) && RunSteps(Fresh, steps).up
    ensures var m := RunSteps(Fresh, steps);
            if RunningSince(steps) then
              && Next(m, Start(n)) == m
              && Next(m, Stop).running == false && Next(m, Stop).stopping
            else
              && Next(m, Stop) == m
              && Next(m, Start(n)).workers == m.workers + IdleWorkers(n)
              && Next(Next(m, Start(n)), Start(n)) == Next(m, Start(n))
  {
    CommandsTell(steps, "");
  }

  // Earlier work stands before every stop mark, and none is left once a worker has met one.
  ghost predicate DrainsFirst(m: Manager, waiting: set<JobId>) {
    && (forall i, j | 0 <= i < j < |m.queue| && m.queue[i].StopMark? && m.queue[j].Work? :: m.queue[j].id !in waiting)
    && ((exists w :: 0 <= w < |m.workers| && m.workers[w] == Exited) ==>
          forall j | 0 <= j < |m.queue| && m.queue[j].Work? :: m.queue[j].id !in waiting)
    && waiting <= m.jobs.Keys
  }

  lemma {:induction false} DrainStep(m: Manager, waiting: set<JobId>, step: Step)
    requires DrainsFirst(m, waiting) && Enabled(m, step) && step != Recover
    ensures DrainsFirst(Next(m, step), waiting)
  {
    hide Moves, Waiting, Recovered, IsTerminal;
    var n := Next(m, step);
    match step
    case Take(w) =>
      forall i | 0 <= i < |n.queue| ensures n.queue[i] == m.queue[i + 1] {}
    case Start(k) =>
      forall w | 0 <= w < |n.workers| && n.workers[w] == Exited
        ensures 0 <= w < |m.workers| && m.workers[w] == Exited
      {}
    case _ =>
  }

  lemma {:induction false} DrainRun(m: Manager, waiting: set<JobId>, steps: seq<Step>)
    requires DrainsFirst(m, waiting) && CanRun(m, steps) && Recover !in steps
    ensures DrainsFirst(RunSteps(m, steps), waiting)
    decreases steps
  {
    hide Enabled, Next, DrainsFirst;
    if steps != [] {
      DrainStep(m, waiting, steps[0]);
      assert forall step | step in steps[1..] :: step in steps;
      DrainRun(Next(m, steps[0]), waiting, steps[1..]);
    }
  }

  /**
   * Stopping drains: by the time a worker of a stopped manager ends, every job that was in the queue has been taken
   * by some worker. Only a restart puts jobs back.
   */
  lemma {:induction false} StopDrains(m: Manager, steps: seq<Step>, w: nat)
    requires Inv(m) && m.up && StopMark !in m.queue && Exited !in m.workers
    requires CanRun(m, [Stop] + steps) && Recover !in steps
    requires var after := RunSteps(m, [Stop] + steps); w < |after.workers| && after.workers[w] == Exited
    ensures forall id | Work(id) in m.queue :: Work(id) !in RunSteps(m, [Stop] + steps).queue
  {
    hide Inv, Enabled, Next, DrainsFirst;
    StopMarksBehind(m);
    assert ([Stop] + steps)[1..] == steps;
    DrainRun(Next(m, Stop), Queued(m), steps);
    DrainedMeans(RunSteps(Next(m, Stop), steps), Queued(m), w);
  }

  function Queued(m: Manager): set<JobId> {
    set item | item in m.queue && item.Work? :: item.id
  }

  lemma DrainedMeans(m: Manager, waiting: set<JobId>, w: nat)
    requires DrainsFirst(m, waiting) && w < |m.workers| && m.workers[w] == Exited
    ensures forall id | id in waiting :: Work(id) !in m.queue
  {}

  lemma {:induction false} StopMarksBehind(m: Manager)
    requires Inv(m) && m.up && StopMark !in m.queue && Exited !in m.workers
    ensures DrainsFirst(Next(m, Stop), Queued(m))
  {
    hide StoreOk, WorkersOk, NothingLost, StartedOk;
    forall i | 0 <= i < |m.queue| ensures m.queue[i].Work? && m.queue[i].id in m.jobs {
      assert m.queue[i] in m.queue;
    }
  }

  function Takes(w: nat, n: nat): seq<Step>
    requires w <= n
    decreases n - w
  {
    if w == n then [StopEnds] else [Take(w)] + Takes(w + 1, n)
  }

  lemma {:induction false} MarksAreTaken(m: Manager, w: nat)
    requires m.stopping && w <= |m.workers| && m.queue == StopMarks(|m.workers| - w)
    requires forall v | 0 <= v < |m.workers| :: m.workers[v] == if v < w then Exited else Idle
    ensures CanRun(m, Takes(w, |m.workers|))
    ensures RunSteps(m, Takes(w, |m.workers|)) == m.(stopping := false, workers := [], queue := [])
    decreases |m.workers| - w
  {
    if w == |m.workers| {
      assert CanRun(Next(m, StopEnds), []) && RunSteps(Next(m, StopEnds), []) == Next(m, StopEnds);
    } else {
      assert Takes(w, |m.workers|)[1..] == Takes(w + 1, |m.workers|);
      assert StopMarks(|m.workers| - w)[1..] == StopMarks(|m.workers| - (w + 1));
      MarksAreTaken(Next(m, Take(w)), w + 1);
    }
  }

  /** A running manager with nothing to do can always be stopped to its end, and is then without workers. */
  lemma {:induction false} StopCanEnd(m: Manager)
    requires m.up && m.running && m.queue == [] && forall v | 0 <= v < |m.workers| :: m.workers[v] == Idle
    ensures var steps := [Stop] + Takes(0, |m.workers|);
            && CanRun(m, steps)
            && RunSteps(m, steps) == m.(running := false, stopping := false, workers := [])
  {
    var n := Next(m, Stop);
    assert n.queue == StopMarks(|m.workers|);
    assert ([Stop] + Takes(0, |m.workers|))[1..] == Takes(0, |m.workers|);
    MarksAreTaken(n, 0);
  }
}
