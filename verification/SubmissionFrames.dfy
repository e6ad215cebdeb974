/** Which frames a cloud submission yields, step by step, and what each kind of ending goes back to. */
module SubmissionFrames {
  import opened Prelude
  import opened CloudSubmission

  // The frame one step makes submission id yield, if any.
  function Yields(c: Client, step: ClientStep, id: SubmissionId): seq<Frame>
    requires ClientEnabled(c, step)
  {
    match step
    case Submit(_) => if c.progress.Some? && id == |c.submissions| then [ErrorFrame(-1009)] else []
    case HostAnswers(i, rc) => if i == id && rc != 0 then [ErrorFrame(rc)] else []
    case Consume(i) =>
      var u := c.progress.value[0];
      if i != id then []
      else if u.stage == 6 then [DoneFrame]
      else if u.stage == 7 then [ErrorFrame(u.code)]
      else [Progress(u)]
    case Expire(i) => if i == id then [ErrorFrame(-99)] else []
    case _ => []
  }

  function Yielded(c: Client, steps: seq<ClientStep>, id: SubmissionId): seq<Frame>
    requires ClientCanRun(c, steps)
    decreases steps
  {
    if steps == [] then [] else Yields(c, steps[0], id) + Yielded(ClientNext(c, steps[0]), steps[1..], id)
  }

  // The updates submission id takes from its queue.
  function Consumed(c: Client, steps: seq<ClientStep>, id: SubmissionId): seq<Update>
    requires ClientCanRun(c, steps)
    decreases steps
  {
    if steps == [] then []
    else
      (if steps[0] == Consume(id) then [c.progress.value[0]] else []) +
      Consumed(ClientNext(c, steps[0]), steps[1..], id)
  }

  // Submission id is made while another holds the slot.
  predicate Refused(c: Client, steps: seq<ClientStep>, id: SubmissionId)
    requires ClientCanRun(c, steps)
    decreases steps
  {
    steps != [] &&
    ((steps[0].Submit? && c.progress.Some? && id == |c.submissions|) ||
     Refused(ClientNext(c, steps[0]), steps[1..], id))
  }

  function FramesSoFar(c: Client, id: SubmissionId): seq<Frame> {
    if id < |c.submissions| then c.submissions[id].frames else []
  }

  lemma {:induction false} StepYields(c: Client, step: ClientStep, id: SubmissionId)
    requires ClientEnabled(c, step)
    ensures FramesSoFar(ClientNext(c, step), id) == FramesSoFar(c, id) + Yields(c, step, id)
  {}

  /** Every frame of a submission is yielded by one step of the run, in the order of the steps. */
  lemma {:induction false} FramesAreYielded(c: Client, steps: seq<ClientStep>, id: SubmissionId)
    requires ClientCanRun(c, steps)
    ensures FramesSoFar(ClientRun(c, steps), id) == FramesSoFar(c, id) + Yielded(c, steps, id)
    decreases steps
  {
    hide ClientEnabled, ClientNext, FramesSoFar, Yields;
    if steps == [] {
      assert FramesSoFar(c, id) + [] == FramesSoFar(c, id);
    } else {
      StepYields(c, steps[0], id);
      FramesAreYielded(ClientNext(c, steps[0]), steps[1..], id);
    }
  }

  lemma {:induction false} DoneYielded(c: Client, steps: seq<ClientStep>, id: SubmissionId)
    requires ClientCanRun(c, steps)
    ensures DoneFrame in Yielded(c, steps, id) <==> exists u | u in Consumed(c, steps, id) :: u.stage == 6
    decreases steps
  {
    hide ClientNext;
    if steps != [] {
      DoneYielded(ClientNext(c, steps[0]), steps[1..], id);
    }
  }

  // What an error frame with this code can go back to.
  predicate Caused(c: Client, steps: seq<ClientStep>, id: SubmissionId, code: int)
    requires ClientCanRun(c, steps)
  {
    || (exists u | u in Consumed(c, steps, id) :: u.stage == 7 && u.code == code)
    || (code != 0 && HostAnswers(id, code) in steps)
    || (code == -99 && Expire(id) in steps)
    || (code == -1009 && Refused(c, steps, id))
  }

  lemma {:induction false} ErrorYielded(c: Client, steps: seq<ClientStep>, id: SubmissionId, code: int)
    requires ClientCanRun(c, steps)
    ensures ErrorFrame(code) in Yielded(c, steps, id) <==> Caused(c, steps, id, code)
    decreases steps
  {
    hide ClientNext;
    if steps != [] {
      var step, next := steps[0], ClientNext(c, steps[0]);
      ErrorYielded(next, steps[1..], id, code);
      assert steps == [step] + steps[1..];
      var own := if step == Consume(id) then [c.progress.value[0]] else [];
      assert Consumed(c, steps, id) == own + Consumed(next, steps[1..], id);
      assert Caused(c, steps, id, code) <==>
             Caused(next, steps[1..], id, code) || ErrorFrame(code) in Yields(c, step, id);
    }
  }

  /**
   * In every run, a submission reports its print done if and only if it took an update of stage 6 from its queue,
   * and an error with some code if and only if it took an update of stage 7 with that code, or its start_print call
   * returned that code and not 0, or its wait timed out (-99), or it was refused for another in flight (-1009).
   */
  lemma {:induction false} EndingsGoBack(steps: seq<ClientStep>, id: SubmissionId, code: int)
    requires ClientCanRun(Client(None, []), steps)
    requires id < |ClientRun(Client(None, []), steps).submissions|
    ensures var frames := ClientRun(Client(None, []), steps).submissions[id].frames;
            && (DoneFrame in frames <==> exists u | u in Consumed(Client(None, []), steps, id) :: u.stage == 6)
            && (ErrorFrame(code) in frames <==>
                  || (exists u | u in Consumed(Client(None, []), steps, id) :: u.stage == 7 && u.code == code)
                  || (code != 0 && HostAnswers(id, code) in steps)
                  || (code == -99 && Expire(id) in steps)
                  || (code == -1009 && Refused(Client(None, []), steps, id)))
  {
    hide ClientCanRun, ClientRun, Yielded, Consumed, Refused;
    FramesAreYielded(Client(None, []), steps, id);
    DoneYielded(Client(None, []), steps, id);
    ErrorYielded(Client(None, []), steps, id, code);
  }

  /** A wait times out only when everything delivered to the submission has been shown. */
  lemma {:induction false} TimeoutMissesNothing(c: Client, id: SubmissionId)
    requires ClientOk(c) && ClientEnabled(c, Expire(id))
    ensures |c.submissions[id].frames| == |c.submissions[id].received|
  {
    assert Split(c.submissions[id], c.progress);
  }

  /** Whoever holds the slot can be closed at any moment, and that frees it. */
  lemma {:induction false} ClosingFrees(c: Client, id: SubmissionId)
    requires Holds(c, id)
    ensures ClientCanRun(c, [Close(id), Submit(true)])
    ensures In(ClientRun(c, [Close(id), Submit(true)]), |c.submissions|, Starting)
  {
    TwoSteps(c, Close(id), Submit(true));
  }

  // ---------------------------------------------------------------------
  // The host's workers

  // What the steps of a run put on the event queue.
  function PushedBy(steps: seq<HostStep>): seq<(WorkerId, Update)> {
    if steps == [] then []
    else
      PushedBy(steps[..|steps| - 1]) +
      match steps[|steps| - 1]
      case Reports(w, update) => [(w, update)]
      case Returns(w, rc) => if rc == 0 then [] else [(w, Update(7, rc, "start_print failed"))]
      case _ => []
  }

  predicate HasReturned(steps: seq<HostStep>, w: WorkerId) {
    exists i | 0 <= i < |steps| :: steps[i].Returns? && steps[i].w == w
  }

  predicate HasCleared(steps: seq<HostStep>, w: WorkerId) {
    exists i | 0 <= i < |steps| :: steps[i] == Clears(w)
  }

  function Life(steps: seq<HostStep>, w: WorkerId): Worker {
    if HasCleared(steps, w) then Gone else if HasReturned(steps, w) then Clearing else CloudSubmission.Printing
  }

  lemma {:induction false} HostRunAppend(s: Slot, steps: seq<HostStep>)
    requires HostCanRun(s, steps) && steps != []
    ensures var (front, last) := (steps[..|steps| - 1], steps[|steps| - 1]);
            && HostCanRun(s, front) && HostEnabled(HostRun(s, front), last)
            && HostRun(s, steps) == HostNext(HostRun(s, front), last)
    decreases steps
  {
    hide HostEnabled, HostNext;
    if |steps| > 1 {
      assert steps[1..][..|steps| - 2] == steps[..|steps| - 1][1..];
      HostRunAppend(HostNext(s, steps[0]), steps[1..]);
    }
  }

  lemma LifeStep(steps: seq<HostStep>, w: WorkerId)
    requires steps != []
    ensures HasReturned(steps, w) <==>
              var last := steps[|steps| - 1];
              HasReturned(steps[..|steps| - 1], w) || (last.Returns? && last.w == w)
    ensures HasCleared(steps, w) <==>
              HasCleared(steps[..|steps| - 1], w) || steps[|steps| - 1] == Clears(w)
  {
    var front, last := steps[..|steps| - 1], steps[|steps| - 1];
    assert steps == front + [last];
    if HasReturned(front, w) {
      var i :| 0 <= i < |front| && front[i].Returns? && front[i].w == w;
      assert steps[i] == front[i];
    }
    if HasCleared(front, w) {
      var i :| 0 <= i < |front| && front[i] == Clears(w);
      assert steps[i] == front[i];
    }
  }

  /**
   * In every run of the host: a worker prints until its call returns and is gone once it has cleared the flag; the
   * queue got what workers reported and, for each call that failed, its code; and the next start_print is accepted,
   * refused without an agent (-1), or refused as busy (-98) while any worker is not gone.
   */
  lemma {:induction false} HostRunTells(steps: seq<HostStep>, agent: bool)
    requires HostCanRun(Slot(false, [], []), steps)
    ensures var s := HostRun(Slot(false, [], []), steps);
            var busy := exists w | 0 <= w < |s.workers| :: !HasCleared(steps, w);
            var next := HostNext(s, StartPrint(agent));
            && s.pushed == PushedBy(steps)
            && (forall w | 0 <= w < |s.workers| :: s.workers[w] == Life(steps, w))
            && StartCode(s, agent) == (if !agent then -1 else if busy then -98 else 0)
            && next.pushed == s.pushed
            && next.workers == if agent && !busy then s.workers + [CloudSubmission.Printing] else s.workers
  {
    hide Life, HasCleared, PushedBy;
    var s := HostRun(Slot(false, [], []), steps);
    HostRunTellsLives(steps, 0);
    HostRunKeeps(Slot(false, [], []), steps);
    forall w | 0 <= w < |s.workers|
      ensures s.workers[w] == Life(steps, w)
      ensures s.workers[w] == Gone <==> HasCleared(steps, w)
    {
      HostRunTellsLives(steps, w);
      LifeIsGone(steps, w);
    }
    if s.inFlight {
      assert !HasCleared(steps, |s.workers| - 1);
    }
  }

  lemma LifeIsGone(steps: seq<HostStep>, w: WorkerId)
    ensures Life(steps, w) == Gone <==> HasCleared(steps, w)
  {
    hide HasCleared, HasReturned;
  }

  // One worker's life so far; of a worker that is not there yet, nothing has been told.
  predicate LifeOk(s: Slot, steps: seq<HostStep>, w: WorkerId) {
    if w < |s.workers| then s.workers[w] == Life(steps, w) else !HasReturned(steps, w) && !HasCleared(steps, w)
  }

  lemma {:induction false} LifeGoesOn(s: Slot, steps: seq<HostStep>, w: WorkerId)
    requires steps != [] && HostEnabled(s, steps[|steps| - 1]) && LifeOk(s, steps[..|steps| - 1], w)
    ensures LifeOk(HostNext(s, steps[|steps| - 1]), steps, w)
  {
    LifeStep(steps, w);
    hide HasReturned, HasCleared;
  }

  lemma {:induction false} HostRunTellsLives(steps: seq<HostStep>, w: WorkerId)
    requires HostCanRun(Slot(false, [], []), steps)
    ensures HostRun(Slot(false, [], []), steps).pushed == PushedBy(steps)
    ensures LifeOk(HostRun(Slot(false, [], []), steps), steps, w)
    decreases |steps|
  {
    hide HostCanRun, HasReturned, HasCleared, LifeOk;
    if steps == [] {
      EmptyRun(w);
    } else {
      HostRunAppend(Slot(false, [], []), steps);
      HostRunTellsLives(steps[..|steps| - 1], w);
      LifeGoesOn(HostRun(Slot(false, [], []), steps[..|steps| - 1]), steps, w);
    }
  }

  lemma EmptyRun(w: WorkerId)
    ensures HostRun(Slot(false, [], []), []) == Slot(false, [], []) && LifeOk(Slot(false, [], []), [], w)
  {}

  /** A printing worker can report, return and clear the flag; with that the next start is accepted again. */
  lemma {:induction false} WorkerCanEnd(s: Slot, w: WorkerId, update: Update, rc: int)
    requires SlotOk(s) && w < |s.workers| && s.workers[w] == CloudSubmission.Printing
    ensures var steps := [Reports(w, update), Returns(w, rc), Clears(w)];
            && HostCanRun(s, steps) && StartCode(HostRun(s, steps), true) == 0
            && StartCode(HostRun(s, steps[..2]), true) == -98
  {
    var steps := [Reports(w, update), Returns(w, rc), Clears(w)];
    var one := HostNext(s, steps[0]);
    var two := HostNext(one, steps[1]);
    assert steps[1..] == [Returns(w, rc), Clears(w)] && steps[1..][1..] == [Clears(w)];
    assert HostCanRun(HostNext(two, Clears(w)), []) && HostCanRun(two, [Clears(w)]);
    assert steps[..2][1..] == [Returns(w, rc)] && [Returns(w, rc)][1..] == [] && [Clears(w)][1..] == [];
    assert HostCanRun(one, [Returns(w, rc)]) && HostRun(two, []) == two;
    assert HostRun(one, steps[1..]) == HostRun(two, [Clears(w)]) == HostNext(two, Clears(w));
  }

  // ---------------------------------------------------------------------
  // From a failing worker to the submission's last frame

  // The submission takes n updates and is resumed after the last.
  function TakeAll(id: SubmissionId, n: nat): seq<ClientStep> {
    if n == 0 then [Resume(id)] else [Consume(id)] + TakeAll(id, n - 1)
  }

  lemma {:induction false} FailureIsTaken(c: Client, id: SubmissionId, earlier: seq<Update>, failure: Update)
    requires In(c, id, Listening) && c.progress == Some(earlier + [failure]) && failure.stage == 7
    requires forall u | u in earlier :: u.stage !in {6, 7}
    ensures var steps := TakeAll(id, |earlier| + 1);
            && ClientCanRun(c, steps)
            && var after := ClientRun(c, steps);
               && after.progress.None? && In(after, id, CloudSubmission.Finished)
               && after.submissions[id].frames ==
                  c.submissions[id].frames + seq(|earlier|, i requires 0 <= i < |earlier| => Progress(earlier[i])) +
                  [ErrorFrame(failure.code)]
    decreases |earlier|
  {
    var next := ClientNext(c, Consume(id));
    if earlier == [] {
      assert c.progress.value == [failure];
      assert TakeAll(id, 1) == [Consume(id), Resume(id)];
      assert next.submissions[id] == Emit(c.submissions[id], ErrorFrame(failure.code));
      TwoSteps(c, Consume(id), Resume(id));
      assert c.submissions[id].frames + [] == c.submissions[id].frames;
    } else {
      var later := earlier[1..];
      assert (earlier + [failure])[0] == earlier[0] && (earlier + [failure])[1..] == later + [failure];
      assert next.submissions[id].frames == c.submissions[id].frames + [Progress(earlier[0])];
      FailureIsTaken(next, id, later, failure);
      assert TakeAll(id, |earlier| + 1)[1..] == TakeAll(id, |later| + 1);
      var shown := seq(|later|, i requires 0 <= i < |later| => Progress(later[i]));
      assert [Progress(earlier[0])] + shown ==
             seq(|earlier|, i requires 0 <= i < |earlier| => Progress(earlier[i]));
    }
  }

  /**
   * A worker whose plugin call fails queues its code as the newest update; brought to the submission that is
   * waiting for it, behind any progress not yet taken, it ends that submission with this code and frees the slot.
   */
  lemma {:induction false} WorkerFailureEnds(s: Slot, w: WorkerId, rc: int, c: Client, id: SubmissionId)
    requires HostEnabled(s, Returns(w, rc)) && rc != 0
    requires ClientOk(c) && In(c, id, Listening)
    requires c.progress.Some? && forall u | u in c.progress.value :: u.stage !in {6, 7}
    ensures var failed := HostNext(s, Returns(w, rc));
            && failed.pushed == s.pushed + [(w, failed.pushed[|s.pushed|].1)]
            && var steps := [Deliver(failed.pushed[|s.pushed|].1)] + TakeAll(id, |c.progress.value| + 1);
               && ClientCanRun(c, steps)
               && var after := ClientRun(c, steps);
                  && after.progress.None? && In(after, id, CloudSubmission.Finished)
                  && after.submissions[id].frames != []
                  && after.submissions[id].frames[|after.submissions[id].frames| - 1] == ErrorFrame(rc)
  {
    hide ClientOk;
    var failure := HostNext(s, Returns(w, rc)).pushed[|s.pushed|].1;
    var next := ClientNext(c, Deliver(failure));
    FailureIsTaken(next, id, c.progress.value, failure);
    var steps := [Deliver(failure)] + TakeAll(id, |c.progress.value| + 1);
    assert steps[1..] == TakeAll(id, |c.progress.value| + 1);
  }
}
