/**
 * The slice-job manager: store, FIFO queue, worker pool, cancellation and restart recovery, interleaved in any order.
 */
module SliceQueue {
  import opened Prelude
  import opened SliceJobs

  datatype Item = Work(id: JobId) | StopMark

  // entered: the worker has set the job's first status.
  datatype Worker = Idle | Busy(id: JobId, entered: bool) | Exited

  // order is the insertion order of the store; started lists every job that ever began slicing.
  // stopping: a stop is waiting for the workers to end.
  datatype Manager = Manager(
    order: seq<JobId>,
    jobs: map<JobId, Job>,
    queue: seq<Item>,
    workers: seq<Worker>,
    cancelEvents: map<JobId, bool>,
    up: bool,
    running: bool,
    stopping: bool,
    parked: set<JobId>,
    started: seq<JobId>)

  const Fresh := Manager([], map[], [], [], map[], true, false, false, {}, [])

  datatype Step =
    | Submit(job: Job, enqueue: bool)
    | Cancel(id: JobId)
    | Start(workers: nat)
    | Stop
    | StopEnds
    | Take(w: nat)
    | Advance(w: nat, next: Job)
    | Finish(w: nat)
    | Crash
    | Recover

  predicate IsBusy(m: Manager, w: nat) {
    w < |m.workers| && m.workers[w].Busy?
  }

  predicate CancelRequested(m: Manager, id: JobId) {
    id in m.cancelEvents && m.cancelEvents[id]
  }

  predicate AllExited(workers: seq<Worker>) {
    forall w | w in workers :: w == Exited
  }

  predicate Enabled(m: Manager, step: Step) {
    match step
    case Submit(job, _) => m.up && job.id !in m.jobs && job.status == Queued
    case Cancel(_) => m.up
    case Start(_) => m.up
    case Stop => m.up
    case StopEnds => m.stopping && AllExited(m.workers)
    case Take(w) => w < |m.workers| && m.workers[w] == Idle && m.queue != []
    case Advance(w, next) =>
      && IsBusy(m, w) && m.workers[w].id in m.jobs
      && Moves(m.jobs[m.workers[w].id], next)
      && (!m.workers[w].entered ==>
            next.status == if CancelRequested(m, m.workers[w].id) then Cancelled else Slicing)
    case Finish(w) => IsBusy(m, w) && m.workers[w].id in m.jobs && IsTerminal(m.jobs[m.workers[w].id].status)
    case Crash => true
    case Recover => !m.up
  }

  function StopMarks(n: nat): seq<Item> {
    seq(n, _ => StopMark)
  }

  function IdleWorkers(n: nat): seq<Worker> {
    seq(n, _ => Idle)
  }

  function Recovered(job: Job): Job {
    if job.status in {Slicing, Uploading}
    then job.(error := Some(InterruptedByRestart), phase := None, status := Failed) else job
  }

  // The queued jobs, in store order.
  function Waiting(order: seq<JobId>, jobs: map<JobId, Job>): seq<Item> {
    if order == [] then []
    else
      Waiting(order[..|order| - 1], jobs) +
      var id := order[|order| - 1];
      if id in jobs && jobs[id].status == Queued then [Work(id)] else []
  }

  function Next(m: Manager, step: Step): Manager
    requires Enabled(m, step)
  {
    match step
    case Submit(job, enqueue) =>
      m.(order := m.order + [job.id], jobs := m.jobs[job.id := job], cancelEvents := m.cancelEvents[job.id := false],
         queue := if enqueue then m.queue + [Work(job.id)] else m.queue,
         parked := if enqueue then m.parked else m.parked + {job.id})
    case Cancel(id) =>
      if id in m.jobs && !IsTerminal(m.jobs[id].status) && id in m.cancelEvents
      then m.(cancelEvents := m.cancelEvents[id := true]) else m
    case Start(n) => if m.running then m else m.(running := true, workers := m.workers + IdleWorkers(n))
    case Stop =>
      if !m.running then m
      else m.(running := false, stopping := true, queue := m.queue + StopMarks(|m.workers|))
    case StopEnds => m.(stopping := false, workers := [])
    case Take(w) =>
      m.(queue := m.queue[1..],
         workers := m.workers[w := if m.queue[0].StopMark? then Exited else Busy(m.queue[0].id, false)])
    case Advance(w, next) =>
      var id := m.workers[w].id;
      m.(jobs := m.jobs[id := next], workers := m.workers[w := Busy(id, true)],
         started := if !m.workers[w].entered && next.status == Slicing then m.started + [id] else m.started)
    case Finish(w) => m.(workers := m.workers[w := Idle], cancelEvents := m.cancelEvents - {m.workers[w].id})
    case Crash => m.(queue := [], workers := [], cancelEvents := map[], up := false, running := false,
                     stopping := false, parked := {})
    case Recover =>
      m.(jobs := map id | id in m.jobs :: Recovered(m.jobs[id]), up := true, queue := Waiting(m.order, m.jobs),
         cancelEvents := map id | id in m.jobs && m.jobs[id].status == Queued :: false)
  }

  predicate CanRun(m: Manager, steps: seq<Step>)
    decreases steps
  {
    steps == [] || (Enabled(m, steps[0]) && CanRun(Next(m, steps[0]), steps[1..]))
  }

  function RunSteps(m: Manager, steps: seq<Step>): Manager
    requires CanRun(m, steps)
    decreases steps
  {
    if steps == [] then m else RunSteps(Next(m, steps[0]), steps[1..])
  }

  // ---------------------------------------------------------------------
  // The invariant

  ghost predicate StoreOk(m: Manager) {
    && Distinct(m.order)
    && (forall id :: id in m.order <==> id in m.jobs)
    && (forall id | id in m.jobs :: m.jobs[id].id == id)
  }

  // In the hands of some worker that has (or has not) set its first status.
  ghost predicate Held(m: Manager, id: JobId, entered: bool) {
    exists w :: 0 <= w < |m.workers| && m.workers[w] == Busy(id, entered)
  }

  ghost predicate QueueOk(m: Manager) {
    && (forall i, j | 0 <= i < j < |m.queue| :: m.queue[i].Work? ==> m.queue[i] != m.queue[j])
    && (forall i | 0 <= i < |m.queue| && m.queue[i].Work? ::
          && m.queue[i].id in m.jobs && m.jobs[m.queue[i].id].status == Queued
          && m.queue[i].id !in m.parked)
    && (forall i, w | 0 <= i < |m.queue| && 0 <= w < |m.workers| ::
          m.queue[i].Work? && m.workers[w].Busy? ==> m.queue[i].id != m.workers[w].id)
  }

  ghost predicate WorkersOk(m: Manager) {
    && (forall v, w | 0 <= v < w < |m.workers| ::
          m.workers[v].Busy? && m.workers[w].Busy? ==> m.workers[v].id != m.workers[w].id)
    && (forall w | 0 <= w < |m.workers| && m.workers[w].Busy? ::
          && m.workers[w].id in m.jobs && m.workers[w].id !in m.parked
          && (m.workers[w].entered <==> m.jobs[m.workers[w].id].status != Queued))
  }

  ghost predicate NothingLost(m: Manager) {
    && (forall id | id in m.parked :: id in m.jobs && m.jobs[id].status == Queued)
    && (m.up ==> forall id | id in m.jobs ::
          && (m.jobs[id].status == Queued ==> Work(id) in m.queue || Held(m, id, false) || id in m.parked)
          && (m.jobs[id].status in {Slicing, Uploading} ==> Held(m, id, true)))
    && (!m.up ==> m.queue == [] && m.workers == [] && m.parked == {} && !m.running && !m.stopping)
  }

  ghost predicate StartedOk(m: Manager) {
    Distinct(m.started) && forall id | id in m.started :: id in m.jobs && m.jobs[id].status != Queued
  }

  ghost predicate Inv(m: Manager) {
    StoreOk(m) && QueueOk(m) && WorkersOk(m) && NothingLost(m) && StartedOk(m)
  }

  lemma {:induction false} WaitingAre(order: seq<JobId>, jobs: map<JobId, Job>)
    requires Distinct(order)
    ensures var queue := Waiting(order, jobs);
            && Distinct(queue)
            && forall item :: item in queue <==>
                 item.Work? && item.id in order && item.id in jobs && jobs[item.id].status == Queued
  {
    if order != [] {
      var shorter, id := order[..|order| - 1], order[|order| - 1];
      WaitingAre(shorter, jobs);
      assert order == shorter + [id];
      assert id !in shorter;
    }
  }

  lemma ParkedAreStored(m: Manager)
    requires NothingLost(m)
    ensures m.parked <= m.jobs.Keys
  {}

  lemma {:induction false} SubmitStore(m: Manager, job: Job, enqueue: bool)
    requires Inv(m) && Enabled(m, Submit(job, enqueue))
    ensures var n := Next(m, Submit(job, enqueue)); StoreOk(n) && StartedOk(n)
  {
    hide NothingLost, QueueOk, WorkersOk;
  }

  lemma {:induction false} SubmitPlaces(m: Manager, job: Job, enqueue: bool)
    requires Inv(m) && Enabled(m, Submit(job, enqueue))
    ensures var n := Next(m, Submit(job, enqueue)); QueueOk(n) && WorkersOk(n)
  {
    hide NothingLost, StoreOk, StartedOk;
    ParkedAreStored(m);
  }

  lemma {:induction false} SubmitKeeps(m: Manager, job: Job, enqueue: bool)
    requires Inv(m) && Enabled(m, Submit(job, enqueue))
    ensures Inv(Next(m, Submit(job, enqueue)))
  {
    hide StoreOk, QueueOk, WorkersOk, StartedOk;
    var n := Next(m, Submit(job, enqueue));
    SubmitStore(m, job, enqueue);
    SubmitPlaces(m, job, enqueue);
    SameWorkers(m, n);
    if enqueue {
      assert n.queue[|m.queue|] == Work(job.id);
    }
  }

  lemma {:induction false} StopKeeps(m: Manager)
    requires Inv(m) && Enabled(m, Stop)
    ensures Inv(Next(m, Stop))
  {
    var n := Next(m, Stop);
    SameWorkers(m, n);
    forall item | item in m.queue ensures item in n.queue {
      var i :| 0 <= i < |m.queue| && m.queue[i] == item;
      assert n.queue[i] == item;
    }
  }

  lemma {:induction false} SameWorkers(m: Manager, n: Manager)
    requires m.workers == n.workers
    ensures forall id, entered :: Held(m, id, entered) == Held(n, id, entered)
  {}

  lemma {:induction false} StartKeeps(m: Manager, k: nat)
    requires Inv(m) && Enabled(m, Start(k))
    ensures Inv(Next(m, Start(k)))
  {
    var n := Next(m, Start(k));
    forall id, entered | Held(m, id, entered) ensures Held(n, id, entered) {
      var w :| 0 <= w < |m.workers| && m.workers[w] == Busy(id, entered);
      assert n.workers[w] == Busy(id, entered);
    }
  }

  lemma {:induction false} StopEndsKeeps(m: Manager)
    requires Inv(m) && Enabled(m, StopEnds)
    ensures Inv(Next(m, StopEnds))
  {
    forall w | 0 <= w < |m.workers| ensures m.workers[w] == Exited {
      assert m.workers[w] in m.workers;
    }
  }

  lemma {:induction false} TakeKeeps(m: Manager, w: nat)
    requires Inv(m) && Enabled(m, Take(w))
    ensures Inv(Next(m, Take(w)))
  {
    var n := Next(m, Take(w));
    forall id, entered | Held(m, id, entered) ensures Held(n, id, entered) {
      var v :| 0 <= v < |m.workers| && m.workers[v] == Busy(id, entered);
      assert n.workers[v] == Busy(id, entered);
    }
    forall id | Work(id) in m.queue ensures Work(id) in n.queue || Held(n, id, false) {
      var i :| 0 <= i < |m.queue| && m.queue[i] == Work(id);
      if i == 0 {
        assert n.workers[w] == Busy(id, false);
      } else {
        assert n.queue[i - 1] == Work(id);
      }
    }
    forall i | 0 <= i < |n.queue| ensures n.queue[i] == m.queue[i + 1] {}
  }

  lemma {:induction false} AdvanceStore(m: Manager, w: nat, next: Job)
    requires Inv(m) && Enabled(m, Advance(w, next))
    ensures var n := Next(m, Advance(w, next)); StoreOk(n) && StartedOk(n)
  {
    hide NothingLost, QueueOk, Moves;
    var n, id := Next(m, Advance(w, next)), m.workers[w].id;
    MoveFacts(m.jobs[id], next);
    if !m.workers[w].entered {
      assert id !in m.started;
    }
  }

  lemma {:induction false} AdvancePlaces(m: Manager, w: nat, next: Job)
    requires Inv(m) && Enabled(m, Advance(w, next))
    ensures var n := Next(m, Advance(w, next)); QueueOk(n) && WorkersOk(n)
  {
    hide NothingLost, StoreOk, StartedOk, Moves;
    MoveFacts(m.jobs[m.workers[w].id], next);
  }

  lemma {:induction false} AdvanceKeeps(m: Manager, w: nat, next: Job)
    requires Inv(m) && Enabled(m, Advance(w, next))
    ensures Inv(Next(m, Advance(w, next)))
  {
    hide StoreOk, QueueOk, StartedOk, Moves;
    var n, id := Next(m, Advance(w, next)), m.workers[w].id;
    AdvanceStore(m, w, next);
    AdvancePlaces(m, w, next);
    MoveFacts(m.jobs[id], next);
    assert n.workers[w] == Busy(id, true);
    assert Held(n, id, true);
    forall other, entered | other != id && Held(m, other, entered) ensures Held(n, other, entered) {
      var v :| 0 <= v < |m.workers| && m.workers[v] == Busy(other, entered);
      assert n.workers[v] == Busy(other, entered);
    }
  }

  lemma MoveFacts(a: Job, b: Job)
    requires Moves(a, b)
    ensures a.id == b.id && (b.status == Queued ==> a.status == Queued) && !IsTerminal(a.status)
  {}

  lemma {:induction false} FinishKeeps(m: Manager, w: nat)
    requires Inv(m) && Enabled(m, Finish(w))
    ensures Inv(Next(m, Finish(w)))
  {
    var n, id := Next(m, Finish(w)), m.workers[w].id;
    forall other, entered | other != id && Held(m, other, entered) ensures Held(n, other, entered) {
      var v :| 0 <= v < |m.workers| && m.workers[v] == Busy(other, entered);
      assert n.workers[v] == Busy(other, entered);
    }
  }

  lemma {:induction false} RecoverKeeps(m: Manager)
    requires Inv(m) && Enabled(m, Recover)
    ensures Inv(Next(m, Recover))
  {
    hide Waiting;
    WaitingAre(m.order, m.jobs);
    var n := Next(m, Recover);
    assert QueueOk(n) && WorkersOk(n);
    forall id | id in n.jobs && n.jobs[id].status == Queued ensures Work(id) in n.queue {
      assert m.jobs[id].status == Queued;
    }
  }

  lemma {:induction false} StepKeeps(m: Manager, step: Step)
    requires Inv(m) && Enabled(m, step)
    ensures Inv(Next(m, step))
  {
    match step
    case Submit(job, enqueue) => SubmitKeeps(m, job, enqueue);
    case Cancel(_) => SameWorkers(m, Next(m, step));
    case Start(k) => StartKeeps(m, k);
    case Stop => StopKeeps(m);
    case StopEnds => StopEndsKeeps(m);
    case Take(w) => TakeKeeps(m, w);
    case Advance(w, next) => AdvanceKeeps(m, w, next);
    case Finish(w) => FinishKeeps(m, w);
    case Crash =>
    case Recover => RecoverKeeps(m);
  }

  lemma {:induction false} RunKeeps(m: Manager, steps: seq<Step>)
    requires Inv(m) && CanRun(m, steps)
    ensures Inv(RunSteps(m, steps))
    decreases steps
  {
    hide Inv, Enabled, Next;
    if steps != [] {
      StepKeeps(m, steps[0]);
      RunKeeps(Next(m, steps[0]), steps[1..]);
    }
  }

  // Where a job is: waiting in the queue, or held by worker w.
  datatype Place = InQueue(i: nat) | WithWorker(w: nat)

  predicate At(m: Manager, id: JobId, p: Place) {
    match p
    case InQueue(i) => i < |m.queue| && m.queue[i] == Work(id)
    case WithWorker(w) => IsBusy(m, w) && m.workers[w].id == id
  }

  /**
   * In every reachable state, across restarts: a job is in at most one place, among the queue and
   * all workers; no job ever begins slicing twice; and while the manager is up every unfinished
   * job is somewhere, unless it was submitted without being enqueued.
   */
  lemma {:induction false} NeverTwiceNeverLost(steps: seq<Step>, id: JobId, p: Place, q: Place)
    requires CanRun(Fresh, steps)
    ensures var m := RunSteps(Fresh, steps);
            && (At(m, id, p) && At(m, id, q) ==> p == q)
            && Distinct(m.started)
            && (m.up && id in m.jobs && !IsTerminal(m.jobs[id].status) ==>
                  (id in m.parked && m.jobs[id].status == Queued) || exists r: Place :: At(m, id, r))
  {
    hide Enabled, Next, CanRun;
    assert Inv(Fresh);
    RunKeeps(Fresh, steps);
    var m := RunSteps(Fresh, steps);
    if m.up && id in m.jobs && !IsTerminal(m.jobs[id].status) && id !in m.parked {
      if Work(id) in m.queue {
        var i :| 0 <= i < |m.queue| && m.queue[i] == Work(id);
        assert At(m, id, InQueue(i));
      } else {
        var entered := m.jobs[id].status != Queued;
        assert Held(m, id, entered);
        var w :| 0 <= w < |m.workers| && m.workers[w] == Busy(id, entered);
        assert At(m, id, WithWorker(w));
      }
    }
  }

  /**
   * After a crash at any point, recovery leaves in the queue exactly the queued jobs, once each and
   * in store order (those that had been parked among them), interrupted jobs failed, every other
   * job as it was, and no cancellation requested.
   */
  lemma {:induction false} RecoveryIsExact(steps: seq<Step>)
    requires CanRun(Fresh, steps)
    ensures var m := RunSteps(Fresh, steps);
            var down := Next(m, Crash);
            Enabled(down, Recover)
    ensures var m := RunSteps(Fresh, steps);
            var r := Next(Next(m, Crash), Recover);
            && r.jobs.Keys == m.jobs.Keys
            && (forall id | id in m.jobs ::
                  if m.jobs[id].status in {Slicing, Uploading}
                  then r.jobs[id].status == Failed && r.jobs[id].error == Some(InterruptedByRestart)
                  else r.jobs[id] == m.jobs[id])
            && Distinct(r.queue)
            && (forall item :: item in r.queue <==> item.Work? && item.id in m.jobs && m.jobs[item.id].status == Queued)
            && (forall i, j | 0 <= i < j < |r.queue| :: Earlier(m.order, r.queue[i].id, r.queue[j].id))
            && (forall id :: !CancelRequested(r, id))
  {
    hide Enabled, CanRun;
    assert Inv(Fresh);
    RunKeeps(Fresh, steps);
    var m := RunSteps(Fresh, steps);
    WaitingAre(m.order, m.jobs);
    WaitingInOrder(m.order, m.jobs);
    assert Enabled(m, Crash) && Enabled(Next(m, Crash), Recover) by { CrashThenRecover(m); }
  }

  lemma CrashThenRecover(m: Manager)
    ensures Enabled(m, Crash) && Enabled(Next(m, Crash), Recover)
  {}

  ghost predicate Earlier(order: seq<JobId>, a: JobId, b: JobId) {
    exists i, j :: 0 <= i < j < |order| && order[i] == a && order[j] == b
  }

  lemma {:induction false} EarlierGrows(order: seq<JobId>, id: JobId)
    ensures forall a, b | Earlier(order, a, b) :: Earlier(order + [id], a, b)
    ensures forall a | a in order :: Earlier(order + [id], a, id)
  {
    var longer := order + [id];
    forall a, b | Earlier(order, a, b) ensures Earlier(longer, a, b) {
      var i, j :| 0 <= i < j < |order| && order[i] == a && order[j] == b;
      assert longer[i] == a && longer[j] == b;
    }
    forall a | a in order ensures Earlier(longer, a, id) {
      var i :| 0 <= i < |order| && order[i] == a;
      assert longer[i] == a && longer[|order|] == id;
    }
  }

  // A queue of jobs that follows the order they were submitted in.
  ghost predicate Follows(queue: seq<Item>, order: seq<JobId>) {
    && (forall item | item in queue :: item.Work? && item.id in order)
    && (forall i, j | 0 <= i < j < |queue| :: Earlier(order, queue[i].id, queue[j].id))
  }

  lemma {:induction false} FollowsMore(head: seq<Item>, order: seq<JobId>, id: JobId)
    requires Follows(head, order)
    ensures Follows(head, order + [id]) && Follows(head + [Work(id)], order + [id])
  {
    hide Earlier;
    EarlierGrows(order, id);
    var queue := head + [Work(id)];
    forall i, j | 0 <= i < j < |queue| ensures Earlier(order + [id], queue[i].id, queue[j].id) {
      assert queue[i] == head[i] && head[i] in head;
      assert j < |head| ==> queue[j] == head[j] && Earlier(order, head[i].id, head[j].id);
    }
  }

  lemma {:induction false} WaitingInOrder(order: seq<JobId>, jobs: map<JobId, Job>)
    requires Distinct(order)
    ensures Follows(Waiting(order, jobs), order)
  {
    hide Follows;
    if order == [] {
      EmptyFollows(order);
    } else {
      var shorter, id := order[..|order| - 1], order[|order| - 1];
      WaitingInOrder(shorter, jobs);
      assert order == shorter + [id];
      var head := Waiting(shorter, jobs);
      FollowsMore(head, shorter, id);
      assert Waiting(order, jobs) == if id in jobs && jobs[id].status == Queued then head + [Work(id)] else head by {
        assert head + [] == head;
      }
    }
  }

  lemma EmptyFollows(order: seq<JobId>)
    ensures Follows([], order)
  {}

  // ---------------------------------------------------------------------
  // Cancellation, and the jobs' own runs

  predicate CrashFree(steps: seq<Step>) {
    forall i | 0 <= i < |steps| :: steps[i] != Crash
  }

  // A job that can only end up cancelled.
  predicate Doomed(m: Manager, id: JobId) {
    && m.up && id in m.jobs && id !in m.started
    && ((m.jobs[id].status == Queued && CancelRequested(m, id)) || m.jobs[id].status == Cancelled)
  }

  lemma {:induction false} DoomedStays(m: Manager, id: JobId, step: Step)
    requires Inv(m) && Doomed(m, id) && Enabled(m, step) && step != Crash
    ensures Doomed(Next(m, step), id)
  {
    hide QueueOk, NothingLost, StartedOk, Moves;
    if step.Advance? && m.workers[step.w].id == id {
      MoveFacts(m.jobs[id], step.next);
    }
  }

  /** A job cancelled while it waits never begins slicing, unless the gateway restarts in between. */
  lemma {:induction false} CancelledInQueueNeverSlices(m: Manager, id: JobId, steps: seq<Step>)
    requires Inv(m) && m.up && id in m.jobs && m.jobs[id].status == Queued && CancelRequested(m, id)
    requires CanRun(m, steps) && CrashFree(steps)
    ensures id !in RunSteps(m, steps).started
    ensures RunSteps(m, steps).jobs.Keys >= {id}
    ensures RunSteps(m, steps).jobs[id].status in {Queued, Cancelled}
  {
    StaysDoomed(m, id, steps);
  }

  lemma {:induction false} StaysDoomed(m: Manager, id: JobId, steps: seq<Step>)
    requires Inv(m) && Doomed(m, id) && CanRun(m, steps) && CrashFree(steps)
    ensures Doomed(RunSteps(m, steps), id)
    decreases steps
  {
    hide Inv, Doomed, Enabled, Next;
    if steps != [] {
      StepKeeps(m, steps[0]);
      DoomedStays(m, id, steps[0]);
      StaysDoomed(Next(m, steps[0]), id, steps[1..]);
    }
  }

  lemma {:induction false} AppendStep(m: Manager, steps: seq<Step>, last: Step)
    requires CanRun(m, steps) && Enabled(RunSteps(m, steps), last)
    ensures CanRun(m, steps + [last]) && RunSteps(m, steps + [last]) == Next(RunSteps(m, steps), last)
    decreases steps
  {
    hide Enabled, Next;
    if steps == [] {
      assert steps + [last] == [last];
    } else {
      assert (steps + [last])[1..] == steps[1..] + [last];
      AppendStep(Next(m, steps[0]), steps[1..], last);
    }
  }

  // The state after a crash, recovery and the start of n workers.
  function Restarted(m: Manager, n: nat): Manager {
    Next(Next(Next(m, Crash), Recover), Start(n))
  }

  lemma {:induction false} RestartRuns(m: Manager, n: nat) returns (steps: seq<Step>)
    ensures CanRun(m, steps) && RunSteps(m, steps) == Restarted(m, n)
  {
    hide Waiting, Recovered;
    steps := [];
    AppendStep(m, steps, Crash);
    steps := steps + [Crash];
    AppendStep(m, steps, Recover);
    steps := steps + [Recover];
    AppendStep(m, steps, Start(n));
    steps := steps + [Start(n)];
  }

  // Worker by worker, the first p entries of the queue are taken.
  lemma {:induction false} TakeFirst(m: Manager, n: nat, p: nat) returns (steps: seq<Step>)
    requires var r := Restarted(m, n); p <= n && p <= |r.queue| && forall item | item in r.queue :: item.Work?
    ensures CanRun(m, steps)
    ensures var r, a := Restarted(m, n), RunSteps(m, steps);
            && a.queue == r.queue[p..] && |a.workers| == n
            && (forall w | p <= w < n :: a.workers[w] == Idle)
            && (p > 0 ==> a.workers[p - 1] == Busy(r.queue[p - 1].id, false))
            && a.jobs == r.jobs && a.cancelEvents == r.cancelEvents
    decreases p
  {
    hide Waiting, Recovered;
    var r := Restarted(m, n);
    if p == 0 {
      steps := RestartRuns(m, n);
    } else {
      var before := TakeFirst(m, n, p - 1);
      var a := RunSteps(m, before);
      assert a.queue[0] == r.queue[p - 1] && a.queue[0] in r.queue;
      AppendStep(m, before, Take(p - 1));
      steps := before + [Take(p - 1)];
    }
  }

  // A job in a worker's hands, not cancelled as far as the manager knows, can begin slicing.
  lemma {:induction false} TakenCanSlice(m: Manager, w: nat, id: JobId) returns (next: Job)
    requires IsBusy(m, w) && m.workers[w] == Busy(id, false)
    requires id in m.jobs && m.jobs[id].status == Queued && !CancelRequested(m, id)
    ensures Enabled(m, Advance(w, next)) && id in Next(m, Advance(w, next)).started
  {
    next := m.jobs[id].(status := Slicing);
    assert Next(m, Advance(w, next)).started[|m.started|] == id;
  }

  // A restart forgets that a waiting job was cancelled, and a worker can then take and slice it.
  lemma {:induction false} RestartedJobCanSlice(m: Manager, id: JobId) returns (steps: seq<Step>)
    requires StoreOk(m) && id in m.jobs && m.jobs[id].status == Queued
    ensures CanRun(m, steps) && id in RunSteps(m, steps).started
  {
    hide Waiting, CanRun, RunSteps, Distinct, Recovered, Enabled;
    WaitingAre(m.order, m.jobs);
    var queue := Waiting(m.order, m.jobs);
    var p :| 0 <= p < |queue| && queue[p] == Work(id);
    RecoveredCases(m.jobs[id]);
    RestartedState(m, p + 1);
    var before := TakeFirst(m, p + 1, p + 1);
    var a := RunSteps(m, before);
    var next := TakenCanSlice(a, p, id);
    AppendStep(m, before, Advance(p, next));
    steps := before + [Advance(p, next)];
  }

  lemma RestartedState(m: Manager, n: nat)
    ensures var r := Restarted(m, n);
            && r.queue == Waiting(m.order, m.jobs)
            && r.jobs == (map id | id in m.jobs :: Recovered(m.jobs[id]))
            && (forall id :: !CancelRequested(r, id))
  {
    hide Waiting, Recovered;
  }

  lemma {:induction false} CancelledStays(m: Manager, id: JobId, steps: seq<Step>)
    requires Inv(m) && CanRun(m, steps) && id in m.jobs && m.jobs[id].status == Cancelled && id !in m.started
    ensures var n := RunSteps(m, steps); id in n.jobs && n.jobs[id].status == Cancelled && id !in n.started
    decreases steps
  {
    hide Enabled, Next, Inv;
    if steps != [] {
      StepKeeps(m, steps[0]);
      CancelledStep(m, id, steps[0]);
      CancelledStays(Next(m, steps[0]), id, steps[1..]);
    }
  }

  lemma {:induction false} CancelledStep(m: Manager, id: JobId, step: Step)
    requires Inv(m) && Enabled(m, step) && id in m.jobs && m.jobs[id].status == Cancelled && id !in m.started
    ensures var n := Next(m, step); id in n.jobs && n.jobs[id].status == Cancelled && id !in n.started
  {
    hide QueueOk, NothingLost, StartedOk, Moves, Waiting;
    if step.Advance? && m.workers[step.w].id == id {
      MoveFacts(m.jobs[id], step.next);
    }
  }

  /**
   * Exactly when a cancelled job can still come to be sliced, restarts included: as long as its status
   * is still QUEUED. From then until a worker marks it, a crash makes the gateway forget the cancellation.
   */
  lemma {:induction false} CancelledCanSliceIff(m: Manager, id: JobId)
    requires Inv(m) && Doomed(m, id)
    ensures (exists steps :: CanRun(m, steps) && id in RunSteps(m, steps).started) <==> m.jobs[id].status == Queued
  {
    hide StoreOk, QueueOk, WorkersOk, NothingLost, StartedOk, CanRun, RunSteps;
    if m.jobs[id].status == Queued {
      var steps := RestartedJobCanSlice(m, id);
    } else {
      forall steps | CanRun(m, steps) ensures id !in RunSteps(m, steps).started {
        CancelledStays(m, id, steps);
      }
    }
  }

  function Advances(w: nat, versions: seq<Job>): seq<Step> {
    seq(|versions|, i requires 0 <= i < |versions| => Advance(w, versions[i]))
  }

  lemma {:induction false} PathIsPlayable(m: Manager, w: nat, versions: seq<Job>)
    requires IsBusy(m, w) && m.workers[w].entered && m.workers[w].id in m.jobs
    requires m.jobs[m.workers[w].id].id == m.workers[w].id && Path(m.jobs[m.workers[w].id], versions)
    ensures var steps := Advances(w, versions);
            && CanRun(m, steps)
            && var after := RunSteps(m, steps);
            && after.workers == m.workers
            && after.jobs == m.jobs[m.workers[w].id := Last(m.jobs[m.workers[w].id], versions)]
    decreases versions
  {
    hide Moves, Sound;
    var id, steps := m.workers[w].id, Advances(w, versions);
    if versions == [] {
      assert m.jobs[id := m.jobs[id]] == m.jobs;
    } else {
      MoveFacts(m.jobs[id], versions[0]);
      var n := Next(m, steps[0]);
      assert n.workers == m.workers;
      assert steps[1..] == Advances(w, versions[1..]);
      PathIsPlayable(n, w, versions[1..]);
    }
  }

  /** The worker's body, whatever happens to the job, is a sequence of steps the manager allows. */
  lemma {:induction false} RunIsPlayable(m: Manager, w: nat, c: Circumstances)
    requires Inv(m) && IsBusy(m, w) && !m.workers[w].entered
    requires c.cancelledInQueue == CancelRequested(m, m.workers[w].id)
    requires var job := m.jobs[m.workers[w].id]; 0 <= job.progress <= 100 && !job.printed
    ensures var id := m.workers[w].id;
            var steps := Advances(w, Run(m.jobs[id], c).steps);
            && CanRun(m, steps)
            && Enabled(RunSteps(m, steps), Finish(w))
  {
    hide QueueOk, NothingLost, StartedOk, Path, Sound, Moves, Slice, Sliced, Failing;
    var id := m.workers[w].id;
    var job := m.jobs[id];
    RunCompletes(job, c);
    var versions := Run(job, c).steps;
    FirstVersion(job, c);
    PathHead(job, versions);
    var steps := Advances(w, versions);
    var n := Next(m, steps[0]);
    MoveFacts(job, versions[0]);
    assert steps[1..] == Advances(w, versions[1..]);
    PathIsPlayable(n, w, versions[1..]);
  }

  lemma FirstVersion(job: Job, c: Circumstances)
    ensures var steps := Run(job, c).steps;
            steps != [] && steps[0].status == if c.cancelledInQueue then Cancelled else Slicing
  {
    hide Slice, Sliced, Failing;
  }

  lemma PathHead(job: Job, versions: seq<Job>)
    requires Path(job, versions) && versions != []
    ensures Moves(job, versions[0]) && Path(versions[0], versions[1..])
    ensures Last(job, versions) == Last(versions[0], versions[1..])
  {}

  // ---------------------------------------------------------------------

  lemma {:induction false} NextIsNew(order: seq<JobId>, i: nat)
    requires Distinct(order) && i < |order|
    ensures order[i] !in order[..i]
    ensures forall id :: id in order[..i + 1] <==> id in order[..i] || id == order[i]
  {
    assert order[..i + 1] == order[..i] + [order[i]];
  }

  lemma WaitingStep(order: seq<JobId>, i: nat, jobs: map<JobId, Job>)
    requires i < |order| && order[i] in jobs
    ensures Waiting(order[..i + 1], jobs)
         == Waiting(order[..i], jobs) + if jobs[order[i]].status == Queued then [Work(order[i])] else []
  {
    assert order[..i + 1][..i] == order[..i];
  }

  lemma RecoveredCases(job: Job)
    ensures Recovered(job) == if job.status == Slicing || job.status == Uploading
                              then job.(error := Some(InterruptedByRestart), phase := None, status := Failed) else job
  {}

  /** One pass over the persisted jobs, in store order. */
  method Reconcile(order: seq<JobId>, persisted: map<JobId, Job>)
      returns (jobs: map<JobId, Job>, queue: seq<Item>, cancelEvents: map<JobId, bool>)
    requires Distinct(order) && forall id :: id in order <==> id in persisted
    ensures jobs == map id | id in persisted :: Recovered(persisted[id])
    ensures queue == Waiting(order, persisted)
    ensures cancelEvents == map id | id in persisted && persisted[id].status == Queued :: false
  {
    hide Recovered, Distinct, Waiting;
    jobs, queue, cancelEvents := persisted, [], map[];
    assert Waiting([], persisted) == [] by { NothingWaits(persisted); }
    for i := 0 to |order|
      invariant jobs.Keys == persisted.Keys
      invariant queue == Waiting(order[..i], persisted)
      invariant forall id | id in jobs :: jobs[id] == if id in order[..i] then Recovered(persisted[id])
        else persisted[id]
      invariant forall id :: id in cancelEvents <==> id in order[..i] && persisted[id].status == Queued
      invariant forall id | id in cancelEvents :: !cancelEvents[id]
    {
      var id := order[i];
      assert id in persisted;
      var job := jobs[id];
      NextIsNew(order, i);
      WaitingStep(order, i, persisted);
      RecoveredCases(job);
      if job.status == Slicing || job.status == Uploading {
        job := job.(error := Some(InterruptedByRestart), phase := None);
        job := job.(status := Failed, phase := None);
        jobs := jobs[id := job];
      } else if job.status == Queued {
        cancelEvents := cancelEvents[id := false];
        queue := queue + [Work(id)];
      }
    }
    assert order[..|order|] == order;
    assert cancelEvents.Keys == (map id | id in persisted && persisted[id].status == Queued :: false).Keys;
  }

  lemma NothingWaits(jobs: map<JobId, Job>)
    ensures Waiting([], jobs) == []
  {}

  /** The manager object; its methods are the pieces of code that run without giving up control. */
  class SliceJobManager {
    const maxConcurrent: nat
    var order: seq<JobId>
    var jobs: map<JobId, Job>
    var queue: seq<Item>
    var workers: seq<Worker>
    var cancelEvents: map<JobId, bool>
    var running: bool
    var stopping: bool
    ghost var up: bool
    ghost var parked: set<JobId>
    ghost var started: seq<JobId>

    ghost function State(): Manager
      reads this
    {
      Manager(order, jobs, queue, workers, cancelEvents, up, running, stopping, parked, started)
    }

    // A manager starts on whatever store the previous one left.
    constructor (maxConcurrent: int, order: seq<JobId>, jobs: map<JobId, Job>, ghost started: seq<JobId>)
      ensures State() == Manager(order, jobs, [], [], map[], false, false, false, {}, started)
      ensures this.maxConcurrent == Max(1, maxConcurrent)
    {
      this.maxConcurrent := Max(1, maxConcurrent);
      this.order, this.jobs, this.started := order, jobs, started;
      queue, workers, cancelEvents, running, stopping, up, parked := [], [], map[], false, false, false, {};
    }

    method RecoverOnStartup()
      requires StoreOk(State()) && !up && queue == [] && cancelEvents == map[]
      modifies this
      ensures State() == Next(old(State()), Recover)
    {
      hide Waiting, Recovered;
      jobs, queue, cancelEvents := Reconcile(order, jobs);
      up := true;
    }

    method SubmitJob(job: Job, enqueue: bool)
      requires up && job.id !in jobs && job.status == Queued
      modifies this
      ensures State() == Next(old(State()), Submit(job, enqueue))
    {
      order, jobs := order + [job.id], jobs[job.id := job];
      cancelEvents := cancelEvents[job.id := false];
      if enqueue {
        queue := queue + [Work(job.id)];
      } else {
        parked := parked + {job.id};
      }
    }

    method CancelJob(id: JobId) returns (accepted: bool)
      requires up
      modifies this`cancelEvents
      ensures State() == Next(old(State()), Cancel(id))
      ensures accepted <==> id in jobs && !IsTerminal(jobs[id].status)
    {
      if id !in jobs || IsTerminal(jobs[id].status) {
        return false;
      }
      if id in cancelEvents {
        cancelEvents := cancelEvents[id := true];
      }
      return true;
    }

    method StartWorkers()
      requires up
      modifies this`running, this`workers
      ensures State() == Next(old(State()), Start(maxConcurrent))
    {
      if running {
        return;
      }
      running := true;
      for i := 0 to maxConcurrent
        invariant running && workers == old(workers) + IdleWorkers(i)
      {
        workers := workers + [Idle];
      }
    }

    // The part of stop that runs before it waits for the workers.
    method RequestStop()
      requires up
      modifies this`running, this`stopping, this`queue
      ensures State() == Next(old(State()), Stop)
    {
      if !running {
        return;
      }
      running, stopping := false, true;
      for i := 0 to |workers|
        invariant !running && stopping && queue == old(queue) + StopMarks(i)
      {
        queue := queue + [StopMark];
      }
    }

    // The part that runs once every worker has ended.
    method FinishStop()
      requires Enabled(State(), StopEnds)
      modifies this`stopping, this`workers
      ensures State() == Next(old(State()), StopEnds)
    {
      workers := [];
      stopping := false;
    }

    method TakeNext(w: nat)
      requires Enabled(State(), Take(w))
      modifies this`queue, this`workers
      ensures State() == Next(old(State()), Take(w))
    {
      var item := queue[0];
      queue := queue[1..];
      workers := workers[w := if item.StopMark? then Exited else Busy(item.id, false)];
    }

    /** The worker runs the job it took to the end, setting each version of the job in the store. */
    method RunTaken(w: nat, c: Circumstances) returns (notices: seq<Notice>)
      requires Inv(State()) && IsBusy(State(), w) && !workers[w].entered
      requires c.cancelledInQueue == CancelRequested(State(), workers[w].id)
      requires var job := jobs[workers[w].id]; 0 <= job.progress <= 100 && !job.printed
      modifies this
      ensures State() == Ran(old(State()), w, c) && Inv(State())
      ensures notices == Run(old(jobs[workers[w].id]), c).notices
    {
      hide Inv, Run;
      HeldIsStored(State(), w);
      var id := workers[w].id;
      RanKeeps(State(), w, c);
      var final, steps;
      final, steps, notices := RunJob(jobs[id], c);
      jobs := jobs[id := final];
      if !c.cancelledInQueue {
        started := started + [id];
      }
      workers := workers[w := Idle];
      cancelEvents := cancelEvents - {id};
    }
  }

  lemma HeldIsStored(m: Manager, w: nat)
    requires Inv(m) && IsBusy(m, w)
    ensures m.workers[w].id in m.jobs
  {}

  // The state once the job taken by worker w has run to its end.
  function Ran(m: Manager, w: nat, c: Circumstances): Manager
    requires IsBusy(m, w) && m.workers[w].id in m.jobs
  {
    var id := m.workers[w].id;
    m.(jobs := m.jobs[id := Last(m.jobs[id], Run(m.jobs[id], c).steps)],
       workers := m.workers[w := Idle],
       cancelEvents := m.cancelEvents - {id},
       started := if c.cancelledInQueue then m.started else m.started + [id])
  }

  lemma {:induction false} RanKeeps(m: Manager, w: nat, c: Circumstances)
    requires Inv(m) && IsBusy(m, w) && !m.workers[w].entered
    requires c.cancelledInQueue == CancelRequested(m, m.workers[w].id)
    requires var job := m.jobs[m.workers[w].id]; 0 <= job.progress <= 100 && !job.printed
    ensures Inv(Ran(m, w, c))
  {
    hide Inv, Run, CanRun, RunSteps;
    HeldIsStored(m, w);
    var versions := Run(m.jobs[m.workers[w].id], c).steps;
    RunIsPlayable(m, w, c);
    FirstVersion(m.jobs[m.workers[w].id], c);
    PlayedSteps(m, w, versions);
    RunKeeps(m, Advances(w, versions));
    StepKeeps(RunSteps(m, Advances(w, versions)), Finish(w));
    assert Ran(m, w, c) == Next(RunSteps(m, Advances(w, versions)), Finish(w));
  }

  lemma {:induction false} PlayedSteps(m: Manager, w: nat, versions: seq<Job>)
    requires IsBusy(m, w) && m.workers[w].id in m.jobs && CanRun(m, Advances(w, versions))
    requires versions != []
    ensures var id, after := m.workers[w].id, RunSteps(m, Advances(w, versions));
            && after == m.(jobs := m.jobs[id := Last(m.jobs[id], versions)],
                           workers := m.workers[w := Busy(id, true)],
                           started := if !m.workers[w].entered && versions[0].status == Slicing then m.started + [id]
                             else m.started)
    decreases versions
  {
    hide Moves;
    var steps := Advances(w, versions);
    var n := Next(m, steps[0]);
    assert steps[1..] == Advances(w, versions[1..]);
    if |versions| > 1 {
      PlayedSteps(n, w, versions[1..]);
    }
  }
}
