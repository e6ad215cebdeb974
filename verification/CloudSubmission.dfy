/** Cloud print submission: one worker in the host process, one progress stream for each printer. */
module CloudSubmission {
  import opened Prelude

  const PRINT_IN_FLIGHT_CODE := -1009
  const BUSY_CODE := -98
  const NOT_BOOTSTRAPPED_CODE := -1
  const TIMEOUT_CODE := -99
  const STAGE_FINISHED := 6
  const STAGE_ERROR := 7

  datatype Update = Update(stage: int, code: int, msg: string)

  // ---------------------------------------------------------------------
  // The host: at most one worker, guarded by a flag set with compare-and-exchange.

  datatype Worker = Printing | Clearing | Gone

  type WorkerId = nat

  // pushed records which worker put each update on the event queue.
  datatype Slot = Slot(inFlight: bool, workers: seq<Worker>, pushed: seq<(WorkerId, Update)>)

  datatype HostStep =
    | StartPrint(agent: bool)
    | Reports(w: WorkerId, update: Update)
    | Returns(w: WorkerId, rc: int)
    | Clears(w: WorkerId)

  predicate HostEnabled(s: Slot, step: HostStep) {
    match step
    case StartPrint(_) => true
    case Reports(w, _) => w < |s.workers| && s.workers[w] == Printing
    case Returns(w, _) => w < |s.workers| && s.workers[w] == Printing
    case Clears(w) => w < |s.workers| && s.workers[w] == Clearing
  }

  function StartCode(s: Slot, agent: bool): int {
    if !agent then NOT_BOOTSTRAPPED_CODE else if s.inFlight then BUSY_CODE else 0
  }

  function HostNext(s: Slot, step: HostStep): Slot
    requires HostEnabled(s, step)
  {
    match step
    case StartPrint(agent) =>
      if StartCode(s, agent) == 0 then s.(inFlight := true, workers := s.workers + [Printing]) else s
    case Reports(w, update) => s.(pushed := s.pushed + [(w, update)])
    case Returns(w, rc) =>
      s.(workers := s.workers[w := Clearing],
         pushed := if rc != 0 then s.pushed + [(w, Update(STAGE_ERROR, rc, "start_print failed"))] else s.pushed)
    case Clears(w) => s.(inFlight := false, workers := s.workers[w := Gone])
  }

  predicate HostCanRun(s: Slot, steps: seq<HostStep>)
    decreases steps
  {
    steps == [] || (HostEnabled(s, steps[0]) && HostCanRun(HostNext(s, steps[0]), steps[1..]))
  }

  function HostRun(s: Slot, steps: seq<HostStep>): Slot
    requires HostCanRun(s, steps)
    decreases steps
  {
    if steps == [] then s else HostRun(HostNext(s, steps[0]), steps[1..])
  }

  // The flag is up exactly while the newest worker lives; its updates are the latest ones.
  ghost predicate SlotOk(s: Slot) {
    && (forall w | 0 <= w < |s.workers| && s.workers[w] != Gone :: s.inFlight && w == |s.workers| - 1)
    && (s.inFlight ==> s.workers != [] && s.workers[|s.workers| - 1] != Gone)
    && (forall i | 0 <= i < |s.pushed| :: s.pushed[i].0 < |s.workers|)
    && (forall i, j | 0 <= i < j < |s.pushed| :: s.pushed[i].0 <= s.pushed[j].0)
  }

  lemma {:induction false} HostRunKeeps(s: Slot, steps: seq<HostStep>)
    requires SlotOk(s) && HostCanRun(s, steps)
    ensures SlotOk(HostRun(s, steps))
    decreases steps
  {
    if steps != [] {
      HostRunKeeps(HostNext(s, steps[0]), steps[1..]);
    }
  }

  /**
   * Whatever is submitted and however workers progress, at most one worker runs at any time, a new
   * one is accepted exactly when none is running, and no update of a worker is queued after one of
   * its successors'.
   */
  lemma {:induction false} OneWorkerAtATime(steps: seq<HostStep>, v: WorkerId, w: WorkerId)
    requires HostCanRun(Slot(false, [], []), steps)
    ensures var s := HostRun(Slot(false, [], []), steps);
            && (v < |s.workers| && w < |s.workers| && s.workers[v] != Gone && s.workers[w] != Gone ==> v == w)
            && (StartCode(s, true) == 0 <==> forall x | x in s.workers :: x == Gone)
            && (forall i, j | 0 <= i < j < |s.pushed| :: s.pushed[i].0 <= s.pushed[j].0)
  {
    HostRunKeeps(Slot(false, [], []), steps);
    var s := HostRun(Slot(false, [], []), steps);
    if s.inFlight {
      assert s.workers[|s.workers| - 1] in s.workers;
    }
  }

  /** The loader object. */
  class PluginLoader {
    var printInFlight: bool
    var workers: seq<Worker>
    var pushed: seq<(WorkerId, Update)>

    function State(): Slot
      reads this
    {
      Slot(printInFlight, workers, pushed)
    }

    constructor ()
      ensures State() == Slot(false, [], [])
    {
      printInFlight, workers, pushed := false, [], [];
    }

    // Sets the flag if it was down, and says whether it did.
    method CompareExchange() returns (exchanged: bool)
      modifies this`printInFlight
      ensures exchanged == !old(printInFlight) && printInFlight
    {
      exchanged := !printInFlight;
      printInFlight := true;
    }

    method Start(agent: bool) returns (rc: int)
      modifies this
      ensures State() == HostNext(old(State()), StartPrint(agent))
      ensures rc == StartCode(old(State()), agent)
    {
      if !agent {
        return NOT_BOOTSTRAPPED_CODE;
      }
      var exchanged := CompareExchange();
      if !exchanged {
        return BUSY_CODE;
      }
      workers := workers + [Printing];
      return 0;
    }

    // The worker thread once the plugin call has returned.
    method WorkerReturns(w: WorkerId, rc: int)
      requires HostEnabled(State(), Returns(w, rc))
      modifies this
      ensures State() == HostNext(HostNext(old(State()), Returns(w, rc)), Clears(w))
    {
      if rc != 0 {
        pushed := pushed + [(w, Update(STAGE_ERROR, rc, "start_print failed"))];
      }
      workers := workers[w := Clearing];
      workers := workers[w := Gone];
      printInFlight := false;
    }
  }

  // ---------------------------------------------------------------------
  // The gateway: submissions to one printer.

  datatype Frame = Progress(update: Update) | DoneFrame | ErrorFrame(code: int)

  predicate IsTerminal(f: Frame) {
    !f.Progress?
  }

  function FrameOf(u: Update): Frame {
    if u.stage == STAGE_FINISHED then DoneFrame
    else if u.stage == STAGE_ERROR then ErrorFrame(u.code)
    else Progress(u)
  }

  // Settled: the terminal frame is out, the generator not resumed yet. Rejected: it was never admitted.
  datatype Phase = Starting | Listening | Settled | Finished | Abandoned | Raised | Rejected

  type SubmissionId = nat

  // received is the history of updates delivered while the submission held the slot.
  datatype Submission = Submission(phase: Phase, frames: seq<Frame>, received: seq<Update>)

  // progress is the in-flight slot and its queue.
  datatype Client = Client(progress: Option<seq<Update>>, submissions: seq<Submission>)

  datatype ClientStep =
    | Submit(host: bool)
    | HostAnswers(id: SubmissionId, rc: int)
    | HostRaises(id: SubmissionId)
    | Deliver(update: Update)
    | Consume(id: SubmissionId)
    | Expire(id: SubmissionId)
    | Resume(id: SubmissionId)
    | Close(id: SubmissionId)

  predicate In(c: Client, id: SubmissionId, phase: Phase) {
    id < |c.submissions| && c.submissions[id].phase == phase
  }

  predicate Holds(c: Client, id: SubmissionId) {
    id < |c.submissions| && Holding(c.submissions[id].phase)
  }

  // The submission in the slot.
  predicate Holding(phase: Phase) {
    phase in {Starting, Listening, Settled}
  }

  predicate ClientEnabled(c: Client, step: ClientStep) {
    match step
    case Submit(_) => true
    case HostAnswers(id, _) => In(c, id, Starting)
    case HostRaises(id) => In(c, id, Starting)
    case Deliver(_) => true
    case Consume(id) => In(c, id, Listening) && c.progress.Some? && c.progress.value != []
    case Expire(id) => In(c, id, Listening) && c.progress == Some([])
    case Resume(id) => In(c, id, Settled)
    case Close(id) => id < |c.submissions| && Holding(c.submissions[id].phase)
  }

  function Emit(s: Submission, f: Frame): Submission {
    s.(frames := s.frames + [f], phase := if IsTerminal(f) then Settled else s.phase)
  }

  function Ending(phase: Phase): Phase {
    if phase == Settled then Finished else Abandoned
  }

  function ClientNext(c: Client, step: ClientStep): Client
    requires ClientEnabled(c, step)
  {
    match step
    case Submit(host) =>
      if c.progress.Some?
      then c.(submissions := c.submissions + [Submission(Rejected, [ErrorFrame(PRINT_IN_FLIGHT_CODE)], [])])
      else if !host then c.(submissions := c.submissions + [Submission(Raised, [], [])])
      else Client(Some([]), c.submissions + [Submission(Starting, [], [])])
    case HostAnswers(id, rc) =>
      var s := c.submissions[id];
      c.(submissions := c.submissions[id := if rc != 0 then Emit(s, ErrorFrame(rc)) else s.(phase := Listening)])
    case HostRaises(id) => Client(None, c.submissions[id := c.submissions[id].(phase := Raised)])
    case Deliver(update) =>
      if c.progress.None? then c
      else Client(Some(c.progress.value + [update]), Record(c.submissions, update))
    case Consume(id) =>
      Client(Some(c.progress.value[1..]), c.submissions[id := Emit(c.submissions[id], FrameOf(c.progress.value[0]))])
    case Expire(id) => c.(submissions := c.submissions[id := Emit(c.submissions[id], ErrorFrame(TIMEOUT_CODE))])
    case Resume(id) => Client(None, c.submissions[id := c.submissions[id].(phase := Finished)])
    case Close(id) => Client(None, c.submissions[id := c.submissions[id].(phase := Ending(c.submissions[id].phase))])
  }

  // The update goes to the history of whichever submission holds the slot.
  function Record(submissions: seq<Submission>, update: Update): seq<Submission> {
    seq(|submissions|, i requires 0 <= i < |submissions| =>
      if Holding(submissions[i].phase) then submissions[i].(received := submissions[i].received + [update])
      else submissions[i])
  }

  predicate ClientCanRun(c: Client, steps: seq<ClientStep>)
    decreases steps
  {
    steps == [] || (ClientEnabled(c, steps[0]) && ClientCanRun(ClientNext(c, steps[0]), steps[1..]))
  }

  function ClientRun(c: Client, steps: seq<ClientStep>): Client
    requires ClientCanRun(c, steps)
    decreases steps
  {
    if steps == [] then c else ClientRun(ClientNext(c, steps[0]), steps[1..])
  }

  // The frames of the updates, in order.
  function FramesOf(updates: seq<Update>): seq<Frame> {
    seq(|updates|, i requires 0 <= i < |updates| => FrameOf(updates[i]))
  }

  predicate AllProgress(frames: seq<Frame>) {
    forall f | f in frames :: f.Progress?
  }

  // Progress frames, then exactly one terminal frame.
  predicate Complete(frames: seq<Frame>) {
    frames != [] && AllProgress(frames[..|frames| - 1]) && IsTerminal(frames[|frames| - 1])
  }

  // The frames relay the updates received, in order and without gaps, up to a final frame of another origin.
  ghost predicate Relays(s: Submission) {
    exists n | 0 <= n <= |s.received| ::
      || s.frames == FramesOf(s.received[..n])
      || (|s.frames| == n + 1 && s.frames[..n] == FramesOf(s.received[..n]) && s.frames[n].ErrorFrame?)
  }

  ghost predicate SubmissionOk(s: Submission) {
    && (s.phase == Rejected ==> s.frames == [ErrorFrame(PRINT_IN_FLIGHT_CODE)])
    && (s.phase in {Settled, Finished} ==> Complete(s.frames))
    && (s.phase in {Starting, Raised} ==> s.frames == [])
    && (s.phase in {Listening, Abandoned} ==> AllProgress(s.frames))
    && Relays(s)
  }

  // Who holds the slot, and how its frames and the queue split what it received.
  ghost predicate ClientOk(c: Client) {
    && (forall i | 0 <= i < |c.submissions| :: SubmissionOk(c.submissions[i]))
    && (forall i | 0 <= i < |c.submissions| && Holding(c.submissions[i].phase) :: c.progress.Some?)
    && (forall i, j | 0 <= i < j < |c.submissions| ::
          !(Holding(c.submissions[i].phase) && Holding(c.submissions[j].phase)))
    && (c.progress.Some? ==> exists i :: 0 <= i < |c.submissions| && Holding(c.submissions[i].phase))
    && (forall i | 0 <= i < |c.submissions| && c.submissions[i].phase in {Starting, Listening} ::
          Split(c.submissions[i], c.progress))
  }

  lemma RelaysAll(s: Submission)
    requires |s.frames| <= |s.received| && s.frames == FramesOf(s.received[..|s.frames|])
    ensures Relays(s)
  {}

  lemma {:induction false} RelaysMore(s: Submission, update: Update)
    requires Relays(s)
    ensures Relays(s.(received := s.received + [update]))
  {
    var t := s.(received := s.received + [update]);
    var n :| 0 <= n <= |s.received| && (s.frames == FramesOf(s.received[..n]) ||
      (|s.frames| == n + 1 && s.frames[..n] == FramesOf(s.received[..n]) && s.frames[n].ErrorFrame?));
    assert t.received[..n] == s.received[..n];
  }

  lemma {:induction false} RelaysError(s: Submission, code: int)
    requires |s.frames| <= |s.received| && s.frames == FramesOf(s.received[..|s.frames|])
    ensures Relays(s.(frames := s.frames + [ErrorFrame(code)]))
  {
    var n := |s.frames|;
    var t := s.(frames := s.frames + [ErrorFrame(code)]);
    assert t.frames[..n] == FramesOf(t.received[..n]);
  }

  lemma FramesOfNext(updates: seq<Update>, n: nat)
    requires n < |updates|
    ensures FramesOf(updates[..n + 1]) == FramesOf(updates[..n]) + [FrameOf(updates[n])]
  {}

  // A single submission changed for another whose phase holds the slot no longer than before.
  lemma {:induction false} Replaced(c: Client, id: SubmissionId, s: Submission, progress: Option<seq<Update>>)
    requires ClientOk(c) && id < |c.submissions| && Holding(c.submissions[id].phase)
    requires SubmissionOk(s)
    requires Holding(s.phase) <==> progress.Some?
    requires s.phase in {Starting, Listening} ==> Split(s, progress)
    ensures ClientOk(Client(progress, c.submissions[id := s]))
  {
    hide SubmissionOk, Split;
    var n := Client(progress, c.submissions[id := s]);
    if progress.Some? {
      assert Holding(n.submissions[id].phase);
    }
  }

  lemma {:induction false} SubmitKeeps(c: Client, host: bool)
    requires ClientOk(c)
    ensures ClientOk(ClientNext(c, Submit(host)))
  {
    hide SubmissionOk, Split;
    var n := ClientNext(c, Submit(host));
    NewSubmissionsOk();
    if c.progress.Some? {
      var i :| 0 <= i < |c.submissions| && Holding(c.submissions[i].phase);
      assert Holding(n.submissions[i].phase);
    } else if host {
      assert Holding(n.submissions[|c.submissions|].phase);
    }
  }

  lemma {:induction false} NewSubmissionsOk()
    ensures SubmissionOk(Submission(Rejected, [ErrorFrame(PRINT_IN_FLIGHT_CODE)], []))
    ensures SubmissionOk(Submission(Starting, [], [])) && SubmissionOk(Submission(Raised, [], []))
    ensures Split(Submission(Starting, [], []), Some([]))
  {
    RelaysError(Submission(Rejected, [], []), PRINT_IN_FLIGHT_CODE);
    assert [] + [ErrorFrame(PRINT_IN_FLIGHT_CODE)] == [ErrorFrame(PRINT_IN_FLIGHT_CODE)];
    RelaysAll(Submission(Starting, [], []));
    RelaysAll(Submission(Raised, [], []));
  }

  // A submission with what it received and what is still queued for it.
  ghost predicate Split(s: Submission, progress: Option<seq<Update>>) {
    && |s.frames| <= |s.received|
    && s.frames == FramesOf(s.received[..|s.frames|])
    && progress == Some(s.received[|s.frames|..])
  }

  lemma {:induction false} SplitMore(s: Submission, progress: Option<seq<Update>>, update: Update)
    requires Split(s, progress)
    ensures Split(s.(received := s.received + [update]), Some(progress.value + [update]))
  {
    var t := s.(received := s.received + [update]);
    assert t.received[..|s.frames|] == s.received[..|s.frames|];
    assert t.received[|s.frames|..] == s.received[|s.frames|..] + [update];
  }

  lemma {:induction false} DeliverKeeps(c: Client, update: Update)
    requires ClientOk(c)
    ensures ClientOk(ClientNext(c, Deliver(update)))
  {
    hide Relays, FramesOf, Complete, Split;
    var n := ClientNext(c, Deliver(update));
    if c.progress.Some? {
      forall i | 0 <= i < |c.submissions| && Holding(c.submissions[i].phase)
        ensures SubmissionOk(n.submissions[i])
      {
        RelaysMore(c.submissions[i], update);
      }
      forall i | 0 <= i < |n.submissions| && n.submissions[i].phase in {Starting, Listening}
        ensures Split(n.submissions[i], n.progress)
      {
        SplitMore(c.submissions[i], c.progress, update);
      }
      var i :| 0 <= i < |c.submissions| && Holding(c.submissions[i].phase);
      assert Holding(n.submissions[i].phase);
    }
  }

  lemma {:induction false} ConsumeKeeps(c: Client, id: SubmissionId)
    requires ClientOk(c) && ClientEnabled(c, Consume(id))
    ensures ClientOk(ClientNext(c, Consume(id)))
  {
    var s := c.submissions[id];
    var k := |s.frames|;
    assert s.received[k..] == c.progress.value;
    var next := Emit(s, FrameOf(s.received[k]));
    FramesOfNext(s.received, k);
    RelaysAll(next);
    assert next.frames[..k] == s.frames;
    assert SubmissionOk(next);
    Replaced(c, id, next, Some(c.progress.value[1..]));
  }

  lemma {:induction false} ErrorKeeps(c: Client, id: SubmissionId, code: int)
    requires ClientOk(c) && id < |c.submissions| && c.submissions[id].phase in {Starting, Listening}
    ensures ClientOk(c.(submissions := c.submissions[id := Emit(c.submissions[id], ErrorFrame(code))]))
  {
    var s := c.submissions[id];
    RelaysError(s, code);
    var next := Emit(s, ErrorFrame(code));
    assert next.frames[..|s.frames|] == s.frames;
    Replaced(c, id, next, c.progress);
  }

  // A change of phase alone.
  lemma {:induction false} PhaseKeeps(s: Submission, phase: Phase)
    requires SubmissionOk(s)
    requires || (s.phase == Starting && phase in {Listening, Abandoned, Raised})
             || (s.phase == Listening && phase == Abandoned)
             || (s.phase == Settled && phase == Finished)
    ensures SubmissionOk(s.(phase := phase))
  {
    var t := s.(phase := phase);
    assert t.frames == s.frames && t.received == s.received;
    var n :| 0 <= n <= |s.received| && (s.frames == FramesOf(s.received[..n]) ||
      (|s.frames| == n + 1 && s.frames[..n] == FramesOf(s.received[..n]) && s.frames[n].ErrorFrame?));
    assert t.frames == FramesOf(t.received[..n]) ||
      (|t.frames| == n + 1 && t.frames[..n] == FramesOf(t.received[..n]) && t.frames[n].ErrorFrame?);
  }

  lemma {:induction false} RelabelKeeps(c: Client, id: SubmissionId, phase: Phase, progress: Option<seq<Update>>)
    requires ClientOk(c) && id < |c.submissions|
    requires var from := c.submissions[id].phase;
             || (from == Starting && phase == Listening && progress == c.progress)
             || (from == Starting && phase in {Abandoned, Raised} && progress == None)
             || (from == Listening && phase == Abandoned && progress == None)
             || (from == Settled && phase == Finished && progress == None)
    ensures ClientOk(Client(progress, c.submissions[id := c.submissions[id].(phase := phase)]))
  {
    hide SubmissionOk;
    var s := c.submissions[id];
    PhaseKeeps(s, phase);
    Replaced(c, id, s.(phase := phase), progress);
  }

  lemma {:induction false} ClientStepKeeps(c: Client, step: ClientStep)
    requires ClientOk(c) && ClientEnabled(c, step)
    ensures ClientOk(ClientNext(c, step))
  {
    hide SubmissionOk, FramesOf, Split;
    match step
    case Submit(host) => SubmitKeeps(c, host);
    case HostAnswers(id, rc) =>
      if rc != 0 {
        ErrorKeeps(c, id, rc);
      } else {
        RelabelKeeps(c, id, Listening, c.progress);
      }
    case HostRaises(id) => RelabelKeeps(c, id, Raised, None);
    case Deliver(update) => DeliverKeeps(c, update);
    case Consume(id) => ConsumeKeeps(c, id);
    case Expire(id) => ErrorKeeps(c, id, TIMEOUT_CODE);
    case Resume(id) => RelabelKeeps(c, id, Finished, None);
    case Close(id) => RelabelKeeps(c, id, Ending(c.submissions[id].phase), None);
  }

  lemma {:induction false} ClientRunKeeps(c: Client, steps: seq<ClientStep>)
    requires ClientOk(c) && ClientCanRun(c, steps)
    ensures ClientOk(ClientRun(c, steps))
    decreases steps
  {
    hide ClientOk, ClientEnabled, ClientNext;
    if steps != [] {
      ClientStepKeeps(c, steps[0]);
      ClientRunKeeps(ClientNext(c, steps[0]), steps[1..]);
    }
  }

  /**
   * In every interleaving of submissions, host answers, updates, timeouts and closing consumers: at
   * most one submission holds the printer's slot, and the slot is taken exactly while one does; every
   * submission that came to its end yielded progress frames and then exactly one terminal frame; an
   * overlapping one yielded only the in-flight error; and the frames relay the updates in order.
   */
  lemma {:induction false} SubmissionsAreSingleFlight(steps: seq<ClientStep>, i: SubmissionId, j: SubmissionId)
    requires ClientCanRun(Client(None, []), steps)
    ensures var c := ClientRun(Client(None, []), steps);
            && (Holds(c, i) && Holds(c, j) ==> i == j)
            && (c.progress.Some? <==> exists k :: 0 <= k < |c.submissions| && Holding(c.submissions[k].phase))
            && (i < |c.submissions| ==> SubmissionOk(c.submissions[i]))
  {
    hide SubmissionOk, ClientCanRun, ClientRun;
    EmptyClientOk();
    ClientRunKeeps(Client(None, []), steps);
  }

  lemma EmptyClientOk()
    ensures ClientOk(Client(None, []))
  {}

  // The generator will yield no more.
  predicate Ended(phase: Phase) {
    phase in {Finished, Abandoned, Raised, Rejected}
  }

  lemma {:induction false} EndedFrames(s: Submission)
    requires SubmissionOk(s) && Ended(s.phase)
    ensures Complete(s.frames) <==> s.phase in {Finished, Rejected}
  {
    hide Relays;
    if s.phase == Raised {
      assert s.frames == [];
    } else if s.phase == Abandoned && s.frames != [] {
      assert s.frames[|s.frames| - 1] in s.frames;
    }
  }

  // What made the generator end without a terminal frame: no host was attached, the call raised, or the
  // consumer closed it early.
  predicate CutShort(c: Client, step: ClientStep, id: SubmissionId) {
    || (step == Submit(false) && c.progress.None? && id == |c.submissions|)
    || step == HostRaises(id)
    || (step == Close(id) && id < |c.submissions| && c.submissions[id].phase != Settled)
  }

  predicate WasCutShort(c: Client, steps: seq<ClientStep>, id: SubmissionId)
    requires ClientCanRun(c, steps)
    decreases steps
  {
    steps != [] && (CutShort(c, steps[0], id) || WasCutShort(ClientNext(c, steps[0]), steps[1..], id))
  }

  predicate OffTheRails(c: Client, id: SubmissionId) {
    In(c, id, Raised) || In(c, id, Abandoned)
  }

  lemma {:induction false} CutShortStep(c: Client, step: ClientStep, id: SubmissionId)
    requires ClientEnabled(c, step)
    ensures OffTheRails(ClientNext(c, step), id) <==> OffTheRails(c, id) || CutShort(c, step, id)
  {}

  lemma {:induction false} CutShortRun(c: Client, steps: seq<ClientStep>, id: SubmissionId)
    requires ClientCanRun(c, steps)
    ensures OffTheRails(ClientRun(c, steps), id) <==> OffTheRails(c, id) || WasCutShort(c, steps, id)
    decreases steps
  {
    hide ClientEnabled, ClientNext, OffTheRails, CutShort;
    if steps != [] {
      CutShortStep(c, steps[0], id);
      CutShortRun(ClientNext(c, steps[0]), steps[1..], id);
    }
  }

  /**
   * Which submissions end properly: once ended, a submission yielded progress frames and exactly one
   * terminal frame if and only if a host was attached, its start_print call did not raise, and its
   * generator was not closed before the terminal frame.
   */
  lemma {:induction false} EndsCompleteIff(steps: seq<ClientStep>, id: SubmissionId)
    requires ClientCanRun(Client(None, []), steps)
    requires var c := ClientRun(Client(None, []), steps);
             id < |c.submissions| && Ended(c.submissions[id].phase)
    ensures var s := ClientRun(Client(None, []), steps).submissions[id];
            && (Complete(s.frames) <==> s.phase in {Finished, Rejected})
            && (Complete(s.frames) <==> !WasCutShort(Client(None, []), steps, id))
  {
    hide Complete, SubmissionOk, ClientCanRun, ClientRun, WasCutShort;
    SubmissionsAreSingleFlight(steps, id, id);
    var c := ClientRun(Client(None, []), steps);
    EndedFrames(c.submissions[id]);
    CutShortRun(Client(None, []), steps, id);
  }

  lemma {:induction false} TwoSteps(c: Client, a: ClientStep, b: ClientStep)
    requires ClientEnabled(c, a) && ClientEnabled(ClientNext(c, a), b)
    ensures ClientCanRun(c, [a, b]) && ClientRun(c, [a, b]) == ClientNext(ClientNext(c, a), b)
  {
    hide ClientEnabled, ClientNext;
    NothingRuns(c);
    AppendStep(c, [], a);
    assert [] + [a] == [a];
    AppendStep(c, [a], b);
    assert [a] + [b] == [a, b];
  }

  /** A start_print call that raises: the submission ends without any frame, and its slot is free again. */
  lemma {:induction false} RaisedWithoutFrame()
    ensures var steps := [Submit(true), HostRaises(0)];
            && ClientCanRun(Client(None, []), steps)
            && ClientRun(Client(None, []), steps) == Client(None, [Submission(Raised, [], [])])
            && !Complete(ClientRun(Client(None, []), steps).submissions[0].frames)
  {
    hide ClientCanRun, ClientRun;
    var one := ClientNext(Client(None, []), Submit(true));
    assert one == Client(Some([]), [Submission(Starting, [], [])]);
    assert ClientNext(one, HostRaises(0)) == Client(None, [Submission(Raised, [], [])]);
    TwoSteps(Client(None, []), Submit(true), HostRaises(0));
  }

  /** Rejecting an overlapping submission disturbs neither the slot nor any other submission. */
  lemma {:induction false} OverlapDisturbsNothing(c: Client, host: bool, id: SubmissionId)
    requires ClientOk(c) && id < |c.submissions| && Holding(c.submissions[id].phase)
    ensures var n := ClientNext(c, Submit(host));
            && n.progress == c.progress
            && n.submissions[..|c.submissions|] == c.submissions
            && n.submissions[|c.submissions|].frames == [ErrorFrame(PRINT_IN_FLIGHT_CODE)]
            && n.submissions[|c.submissions|].phase == Rejected
  {}

  // ---------------------------------------------------------------------

  /** The printer's client object; each method is what runs between two awaits of submit_print. */
  class CloudPrinterClient {
    var progress: Option<seq<Update>>
    var submissions: seq<Submission>

    function State(): Client
      reads this
    {
      Client(progress, submissions)
    }

    constructor ()
      ensures State() == Client(None, [])
    {
      progress, submissions := None, [];
    }

    method HandleUpdateStatus(update: Update)
      modifies this
      ensures State() == ClientNext(old(State()), Deliver(update))
    {
      if progress.None? {
        return;
      }
      progress := Some(progress.value + [update]);
      submissions := Record(submissions, update);
    }

    // host is whether one is attached; without one the generator raises before it takes the slot.
    method Begin(host: bool) returns (id: SubmissionId)
      modifies this
      ensures State() == ClientNext(old(State()), Submit(host)) && id == |old(submissions)|
    {
      id := |submissions|;
      if progress.Some? {
        submissions := submissions + [Submission(Rejected, [ErrorFrame(PRINT_IN_FLIGHT_CODE)], [])];
        return;
      }
      if !host {
        submissions := submissions + [Submission(Raised, [], [])];
        return;
      }
      progress := Some([]);
      submissions := submissions + [Submission(Starting, [], [])];
    }

    method Yield(id: SubmissionId, frame: Frame)
      requires id < |submissions|
      modifies this`submissions
      ensures submissions == old(submissions)[id := Emit(old(submissions)[id], frame)]
    {
      var s := submissions[id];
      submissions := submissions[id := s.(frames := s.frames + [frame],
                                          phase := if IsTerminal(frame) then Settled else s.phase)];
    }

    // The start_print call has returned.
    method Answered(id: SubmissionId, rc: int)
      requires In(State(), id, Starting)
      modifies this`submissions
      ensures State() == ClientNext(old(State()), HostAnswers(id, rc))
    {
      if rc != 0 {
        Yield(id, ErrorFrame(rc));
      } else {
        submissions := submissions[id := submissions[id].(phase := Listening)];
      }
    }

    // One wait that brought an update.
    method Take(id: SubmissionId)
      requires ClientEnabled(State(), Consume(id))
      modifies this
      ensures State() == ClientNext(old(State()), Consume(id))
    {
      var update := progress.value[0];
      progress := Some(progress.value[1..]);
      if update.stage == STAGE_FINISHED {
        Yield(id, DoneFrame);
      } else if update.stage == STAGE_ERROR {
        Yield(id, ErrorFrame(update.code));
      } else {
        Yield(id, Progress(update));
      }
    }

    // One wait that timed out.
    method TimeOut(id: SubmissionId)
      requires ClientEnabled(State(), Expire(id))
      modifies this`submissions
      ensures State() == ClientNext(old(State()), Expire(id))
    {
      Yield(id, ErrorFrame(TIMEOUT_CODE));
    }

    // Every exit frees the slot: a return, an exception of the call, or the consumer closing the generator.
    method Leave(id: SubmissionId, phase: Phase)
      requires id < |submissions| && Holding(submissions[id].phase)
      modifies this
      ensures progress == None && submissions == old(submissions)[id := old(submissions)[id].(phase := phase)]
    {
      progress := None;
      submissions := submissions[id := submissions[id].(phase := phase)];
    }

    /**
     * The generator's loop from the moment the host has accepted, over what its waits bring (None for
     * a timeout): it follows the protocol and, unless it is still waiting, ends complete with the slot free.
     */
    method Listen(id: SubmissionId, arrivals: seq<Option<Update>>) returns (steps: seq<ClientStep>)
      requires In(State(), id, Listening) && progress.Some?
      requires ClientOk(State())
      modifies this
      ensures ClientCanRun(old(State()), steps) && State() == ClientRun(old(State()), steps)
      ensures ClientOk(State()) && id < |submissions|
      ensures || (submissions[id].phase == Listening && progress == Some([]))
              || (submissions[id].phase == Finished && progress == None && Complete(submissions[id].frames))
    {
      hide ClientOk, ClientCanRun, ClientRun;
      steps := [];
      NothingRuns(State());
      // Updates that came before the host's answer was read are taken without waiting.
      while progress.value != []
        invariant ClientCanRun(old(State()), steps) && State() == ClientRun(old(State()), steps)
        invariant ClientOk(State())
        invariant In(State(), id, Listening) && progress.Some?
        decreases |progress.value|
      {
        Follow(old(State()), steps, Consume(id));
        Take(id);
        steps := steps + [Consume(id)];
        if submissions[id].phase == Settled {
          Follow(old(State()), steps, Resume(id));
          Leave(id, Finished);
          steps := steps + [Resume(id)];
          FinishedIsComplete(State(), id);
          return;
        }
      }
      for k := 0 to |arrivals|
        invariant ClientCanRun(old(State()), steps) && State() == ClientRun(old(State()), steps)
        invariant ClientOk(State())
        invariant In(State(), id, Listening) && progress == Some([])
      {
        if arrivals[k].None? {
          Follow(old(State()), steps, Expire(id));
          TimeOut(id);
          steps := steps + [Expire(id)];
        } else {
          var u := arrivals[k].value;
          Follow(old(State()), steps, Deliver(u));
          HandleUpdateStatus(u);
          steps := steps + [Deliver(u)];
          assert progress.value == [u] && [u][1..] == [];
          Follow(old(State()), steps, Consume(id));
          Take(id);
          steps := steps + [Consume(id)];
        }
        if submissions[id].phase == Settled {
          Follow(old(State()), steps, Resume(id));
          Leave(id, Finished);
          steps := steps + [Resume(id)];
          FinishedIsComplete(State(), id);
          return;
        }
      }
    }
  }

  lemma NothingRuns(c: Client)
    ensures ClientCanRun(c, []) && ClientRun(c, []) == c
  {}

  lemma FinishedIsComplete(c: Client, id: SubmissionId)
    requires ClientOk(c) && In(c, id, Finished)
    ensures Complete(c.submissions[id].frames)
  {}

  // One more step of a run.
  lemma {:induction false} Follow(c: Client, steps: seq<ClientStep>, last: ClientStep)
    requires ClientCanRun(c, steps) && ClientOk(ClientRun(c, steps)) && ClientEnabled(ClientRun(c, steps), last)
    ensures ClientCanRun(c, steps + [last])
    ensures ClientRun(c, steps + [last]) == ClientNext(ClientRun(c, steps), last)
    ensures ClientOk(ClientNext(ClientRun(c, steps), last))
  {
    hide ClientOk, ClientEnabled, ClientNext;
    AppendStep(c, steps, last);
    ClientStepKeeps(ClientRun(c, steps), last);
  }

  lemma {:induction false} AppendStep(c: Client, steps: seq<ClientStep>, last: ClientStep)
    requires ClientCanRun(c, steps) && ClientEnabled(ClientRun(c, steps), last)
    ensures ClientCanRun(c, steps + [last])
    ensures ClientRun(c, steps + [last]) == ClientNext(ClientRun(c, steps), last)
    decreases steps
  {
    hide ClientEnabled, ClientNext;
    if steps == [] {
      assert steps + [last] == [last];
    } else {
      assert (steps + [last])[1..] == steps[1..] + [last];
      AppendStep(ClientNext(c, steps[0]), steps[1..], last);
    }
  }
}
