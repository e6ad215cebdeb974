/** Request/response matching between the gateway and the plugin host process. */
module PluginHost {
  import opened Prelude

  type RequestId = nat

  datatype Reply = Value(value: string) | HostError(message: string)

  datatype Outcome =
    | Replied(reply: Reply)
    | TimedOut
    | StdinClosed
    | ReaderClosed
    | ShutDown

  // Writing: the request is being flushed, and its future may resolve meanwhile.
  datatype Call = Writing(early: Option<Outcome>) | Waiting | Returned(outcome: Outcome)

  // calls is the history of every request; pending is the table the reader looks responses up in.
  datatype Host = Host(
    nextId: nat,
    pending: set<RequestId>,
    calls: map<RequestId, Call>,
    closed: bool,
    processDead: bool,
    readerDone: bool)

  const Running := Host(0, {}, map[], false, false, false)

  // A frame without an id, or with one that is not a number, is Frame(None, ...).
  datatype Event =
    | BeginCall
    | Flushed(id: RequestId)
    | FlushFails(id: RequestId)
    | Frame(target: Option<RequestId>, reply: Reply)
    | Malformed
    | Expires(id: RequestId)
    | ProcessDies
    | ReaderExits
    | StopBegins
    | StopEnds

  predicate Admits(h: Host) {
    !h.closed && !h.processDead && !h.readerDone
  }

  function Resolved(c: Call, o: Outcome): Call {
    match c
    case Writing(None) => Writing(Some(o))
    case Waiting => Returned(o)
    case _ => c
  }

  function ResolveAll(h: Host, o: Outcome): Host {
    h.(pending := {},
       calls := map id | id in h.calls :: if id in h.pending then Resolved(h.calls[id], o) else h.calls[id])
  }

  function Step(h: Host, e: Event): Host {
    match e
    case BeginCall =>
      if Admits(h) then
        h.(nextId := h.nextId + 1, pending := h.pending + {h.nextId + 1},
           calls := h.calls[h.nextId + 1 := Writing(None)])
      else h
    case Flushed(id) =>
      if id in h.calls && h.calls[id].Writing? then
        var early := h.calls[id].early;
        h.(calls := h.calls[id := if early.Some? then Returned(early.value) else Waiting])
      else h
    case FlushFails(id) =>
      if id in h.calls && h.calls[id].Writing? then
        h.(pending := h.pending - {id}, calls := h.calls[id := Returned(StdinClosed)])
      else h
    case Frame(id, reply) =>
      if id.Some? && id.value in h.pending && id.value in h.calls then
        h.(pending := h.pending - {id.value}, calls := h.calls[id.value := Resolved(h.calls[id.value], Replied(reply))])
      else h
    case Malformed => h
    case Expires(id) =>
      if id in h.calls && h.calls[id] == Waiting then
        h.(pending := h.pending - {id}, calls := h.calls[id := Returned(TimedOut)])
      else h
    case ProcessDies => h.(processDead := true)
    case ReaderExits => ResolveAll(h, ReaderClosed).(readerDone := true)
    case StopBegins => h.(closed := true)
    case StopEnds =>
      ResolveAll(ResolveAll(h, ReaderClosed), ShutDown).(closed := true, processDead := true, readerDone := true)
  }

  function Run(events: seq<Event>): Host {
    if events == [] then Running else Step(Run(events[..|events| - 1]), events[|events| - 1])
  }

  // ---------------------------------------------------------------------
  // The reference: the fate of one call, read off the events alone.

  predicate Open(events: seq<Event>) {
    forall i | 0 <= i < |events| ::
      !(events[i].ProcessDies? || events[i].ReaderExits? || events[i].StopBegins? || events[i].StopEnds?)
  }

  // How many calls have been admitted; the n-th gets id n.
  function Issued(events: seq<Event>): nat {
    if events == [] then 0
    else
      Issued(events[..|events| - 1]) +
      if events[|events| - 1].BeginCall? && Open(events[..|events| - 1]) then 1 else 0
  }

  // What one event means to the call with this id; issued is whether the event issues it.
  function Addressed(c: Option<Call>, e: Event, id: RequestId, issued: bool): Option<Call> {
    if c.None? then
      if issued then Some(Writing(None)) else None
    else match e
      case Frame(target, reply) => if target == Some(id) then Some(Resolved(c.value, Replied(reply))) else c
      case Flushed(target) =>
        if target == id && c.value.Writing? then
          Some(if c.value.early.Some? then Returned(c.value.early.value) else Waiting)
        else c
      case FlushFails(target) => if target == id && c.value.Writing? then Some(Returned(StdinClosed)) else c
      case Expires(target) => if target == id && c.value == Waiting then Some(Returned(TimedOut)) else c
      case ReaderExits => Some(Resolved(c.value, ReaderClosed))
      case StopEnds => Some(Resolved(c.value, ReaderClosed))
      case _ => c
  }

  // Only the events addressed to this id, and those that end the reader, play a part.
  function Fate(events: seq<Event>, id: RequestId): Option<Call> {
    if events == [] then None
    else
      var earlier, e := events[..|events| - 1], events[|events| - 1];
      Addressed(Fate(earlier, id), e, id, e.BeginCall? && Open(earlier) && id == Issued(earlier) + 1)
  }

  predicate Unresolved(c: Call) {
    c == Writing(None) || c == Waiting
  }

  // The table is exactly the unresolved calls, and the calls are exactly those issued.
  ghost predicate TableOk(h: Host) {
    && (forall id :: id in h.pending <==> id in h.calls && Unresolved(h.calls[id]))
    && (forall id :: id in h.calls <==> 1 <= id <= h.nextId)
  }

  lemma {:induction false} StepKeepsTable(h: Host, e: Event)
    requires TableOk(h)
    ensures TableOk(Step(h, e))
  {}

  lemma {:induction false} OpenMeansAdmits(events: seq<Event>)
    ensures Admits(Run(events)) <==> Open(events)
  {
    if events != [] {
      var earlier, e := events[..|events| - 1], events[|events| - 1];
      OpenMeansAdmits(earlier);
      assert forall i | 0 <= i < |earlier| :: events[i] == earlier[i];
    }
  }

  // What TableOk says of one id.
  predicate TableAt(h: Host, id: RequestId) {
    && (id in h.pending <==> id in h.calls && Unresolved(h.calls[id]))
    && (id in h.calls <==> 1 <= id <= h.nextId)
  }

  lemma {:induction false} TableHolds(h: Host, id: RequestId)
    requires TableOk(h)
    ensures TableAt(h, id)
  {}

  function CallOf(h: Host, id: RequestId): Option<Call> {
    if id in h.calls then Some(h.calls[id]) else None
  }

  lemma {:induction false} FateStep(h: Host, e: Event, id: RequestId)
    requires TableAt(h, id)
    ensures Addressed(CallOf(h, id), e, id, e.BeginCall? && Admits(h) && id == h.nextId + 1) == CallOf(Step(h, e), id)
  {}

  /**
   * Over every interleaving of calls, frames, timeouts, reader exit and stop, each request is in the
   * state its own events put it in: the shared table never mixes two requests up.  Ids count the
   * admitted calls, and the table holds exactly the requests still unresolved.
   */
  lemma {:induction false} TableTellsFates(events: seq<Event>)
    ensures var h := Run(events);
            && TableOk(h)
            && h.nextId == Issued(events)
            && forall id :: Fate(events, id) == CallOf(h, id)
  {
    hide Step, Open, TableOk, Addressed;
    if events == [] {
      assert TableOk(Running) by { EmptyTable(); }
      NoFateYet(events);
    } else {
      var earlier, e := events[..|events| - 1], events[|events| - 1];
      TableTellsFates(earlier);
      OpenMeansAdmits(earlier);
      StepKeepsTable(Run(earlier), e);
      CountStep(Run(earlier), e);
      forall id
        ensures Fate(events, id) == CallOf(Run(events), id)
      {
        TableHolds(Run(earlier), id);
        FateStep(Run(earlier), e, id);
      }
    }
  }

  lemma EmptyTable()
    ensures TableOk(Running)
  {}

  lemma {:induction false} NoFateYet(events: seq<Event>)
    requires events == []
    ensures forall id :: Fate(events, id) == None
  {}

  lemma CountStep(h: Host, e: Event)
    ensures Step(h, e).nextId == h.nextId + if e.BeginCall? && Admits(h) then 1 else 0
  {}

  /** A call that has returned never returns again: nothing that happens later changes its outcome. */
  lemma {:induction false} ReturnsOnce(events: seq<Event>, n: nat, id: RequestId)
    requires n <= |events|
    requires Fate(events[..n], id).Some? && Fate(events[..n], id).value.Returned?
    ensures Fate(events, id) == Fate(events[..n], id)
    decreases |events|
  {
    if n < |events| {
      var earlier := events[..|events| - 1];
      assert earlier[..n] == events[..n];
      ReturnsOnce(earlier, n, id);
    } else {
      assert events[..n] == events;
    }
  }

  ghost predicate Answers(events: seq<Event>, k: nat, id: RequestId, reply: Reply) {
    && k < |events| && events[k] == Frame(Some(id), reply)
    && Fate(events[..k], id).Some? && Unresolved(Fate(events[..k], id).value)
  }

  function ReplyOf(c: Call): Option<Reply> {
    match c
    case Writing(Some(Replied(reply))) => Some(reply)
    case Returned(Replied(reply)) => Some(reply)
    case _ => None
  }

  /**
   * A call returns only a reply sent to its own id, received after it was issued and before anything else resolved
   * it.
   */
  lemma {:induction false} RepliesAreOwn(events: seq<Event>, id: RequestId) returns (k: nat)
    requires Fate(events, id).Some? && ReplyOf(Fate(events, id).value).Some?
    ensures Answers(events, k, id, ReplyOf(Fate(events, id).value).value)
  {
    var earlier, e := events[..|events| - 1], events[|events| - 1];
    var c := Fate(earlier, id);
    if c.Some? && ReplyOf(c.value) == ReplyOf(Fate(events, id).value) {
      k := RepliesAreOwn(earlier, id);
      assert earlier[..k] == events[..k];
    } else {
      k := |events| - 1;
    }
  }

  /** A response that comes after the call has ended, or for no call at all, changes nothing. */
  lemma {:induction false} LateResponse(events: seq<Event>, id: RequestId, reply: Reply)
    requires Fate(events, id).None? || !Unresolved(Fate(events, id).value)
    ensures Run(events + [Frame(Some(id), reply)]) == Run(events)
  {
    TableTellsFates(events);
    assert (events + [Frame(Some(id), reply)])[..|events|] == events;
  }

  lemma {:induction false} NoneStayPending(events: seq<Event>, k: nat)
    requires k < |events| && (events[k].ReaderExits? || events[k].StopEnds?)
    ensures Run(events).pending == {} && Run(events).readerDone
    decreases |events|
  {
    if k < |events| - 1 {
      var earlier := events[..|events| - 1];
      assert earlier[k] == events[k];
      NoneStayPending(earlier, k);
    }
  }

  /** Once the reader has exited or stop has finished, no call is waiting, and none is admitted any more. */
  lemma {:induction false} NoCallIsStranded(events: seq<Event>, k: nat, id: RequestId)
    requires k < |events| && (events[k].ReaderExits? || events[k].StopEnds?)
    ensures Fate(events, id).Some? ==> !Unresolved(Fate(events, id).value)
    ensures Run(events + [BeginCall]) == Run(events)
  {
    hide Fate;
    NoneStayPending(events, k);
    TableTellsFates(events);
    assert (events + [BeginCall])[..|events|] == events;
  }

  /** Stopping never has anything left to fail: the reader has already failed every open call. */
  lemma {:induction false} ShutDownIsNeverSeen(events: seq<Event>, id: RequestId)
    ensures Fate(events, id).Some? ==>
              Fate(events, id).value != Returned(ShutDown) && Fate(events, id).value != Writing(Some(ShutDown))
  {
    if events != [] {
      ShutDownIsNeverSeen(events[..|events| - 1], id);
    }
  }

  // ---------------------------------------------------------------------
  // How each way of ending a call shows, on the calls themselves.

  predicate Stands(h: Host, id: RequestId, c: Call) {
    id in h.calls && h.calls[id] == c
  }

  lemma {:induction false} RunAppend(events: seq<Event>, e: Event)
    ensures Run(events + [e]) == Step(Run(events), e)
  {
    assert (events + [e])[..|events|] == events;
  }

  lemma {:induction false} RunKeepsTable(events: seq<Event>)
    ensures TableOk(Run(events))
  {
    TableTellsFates(events);
  }

  // A returned call stays as it is, whatever follows.
  lemma {:induction false} ReturnedStays(events: seq<Event>, later: seq<Event>, id: RequestId, o: Outcome)
    requires Stands(Run(events), id, Returned(o))
    ensures Stands(Run(events + later), id, Returned(o))
    decreases later
  {
    if later == [] {
      assert events + later == events;
    } else {
      var shorter, e := later[..|later| - 1], later[|later| - 1];
      ReturnedStays(events, shorter, id, o);
      assert events + later == (events + shorter) + [e];
      RunAppend(events + shorter, e);
      RunKeepsTable(events + shorter);
      TableHolds(Run(events + shorter), id);
      ReturnedStep(Run(events + shorter), e, id, o);
    }
  }

  lemma {:induction false} ReturnedStep(h: Host, e: Event, id: RequestId, o: Outcome)
    requires TableAt(h, id) && Stands(h, id, Returned(o))
    ensures Stands(Step(h, e), id, Returned(o))
  {}

  // An outcome that came while the request was still being written waits for the writing to end.
  lemma {:induction false} EarlyStays(events: seq<Event>, mid: seq<Event>, id: RequestId, o: Outcome)
    requires Stands(Run(events), id, Writing(Some(o))) && Flushed(id) !in mid && FlushFails(id) !in mid
    ensures Stands(Run(events + mid), id, Writing(Some(o)))
    decreases mid
  {
    if mid == [] {
      assert events + mid == events;
    } else {
      var shorter, e := mid[..|mid| - 1], mid[|mid| - 1];
      assert mid == shorter + [e];
      EarlyStays(events, shorter, id, o);
      assert events + mid == (events + shorter) + [e];
      RunAppend(events + shorter, e);
      RunKeepsTable(events + shorter);
      TableHolds(Run(events + shorter), id);
      EarlyStep(Run(events + shorter), e, id, o);
    }
  }

  lemma {:induction false} EarlyStep(h: Host, e: Event, id: RequestId, o: Outcome)
    requires TableAt(h, id) && Stands(h, id, Writing(Some(o))) && e != Flushed(id) && e != FlushFails(id)
    ensures Stands(Step(h, e), id, Writing(Some(o)))
  {}

  // What an event means to a call that is waiting for it.
  function Ends(e: Event, id: RequestId): Option<Outcome> {
    match e
    case Frame(target, reply) => if target == Some(id) then Some(Replied(reply)) else None
    case Expires(target) => if target == id then Some(TimedOut) else None
    case ReaderExits => Some(ReaderClosed)
    case StopEnds => Some(ReaderClosed)
    case _ => None
  }

  lemma {:induction false} WaitingStep(h: Host, e: Event, id: RequestId)
    requires TableAt(h, id) && Stands(h, id, Waiting)
    ensures Stands(Step(h, e), id, if Ends(e, id).Some? then Returned(Ends(e, id).value) else Waiting)
  {}

  /**
   * A waiting call returns what ends its wait, for good: a frame with its id gives that frame's reply, its
   * own timeout the timeout, the reader's exit or a stop the closed reader; and nothing else ends it.
   */
  lemma {:induction false} WaitingCallReturns(events: seq<Event>, e: Event, later: seq<Event>, id: RequestId)
    requires Stands(Run(events), id, Waiting)
    ensures match e
            case Frame(target, reply) =>
              if target == Some(id) then Stands(Run(events + [e] + later), id, Returned(Replied(reply)))
              else Stands(Run(events + [e]), id, Waiting)
            case Expires(target) =>
              if target == id then Stands(Run(events + [e] + later), id, Returned(TimedOut))
              else Stands(Run(events + [e]), id, Waiting)
            case ReaderExits => Stands(Run(events + [e] + later), id, Returned(ReaderClosed))
            case StopEnds => Stands(Run(events + [e] + later), id, Returned(ReaderClosed))
            case _ => Stands(Run(events + [e]), id, Waiting)
  {
    hide Step, Run, TableOk;
    RunAppend(events, e);
    RunKeepsTable(events);
    TableHolds(Run(events), id);
    WaitingStep(Run(events), e, id);
    if Ends(e, id).Some? {
      ReturnedStays(events + [e], later, id, Ends(e, id).value);
    }
  }

  lemma {:induction false} WritingStep(h: Host, e: Event, id: RequestId)
    requires TableAt(h, id) && Stands(h, id, Writing(None))
    ensures Stands(Step(h, e), id,
              if e == Flushed(id) then Waiting
              else if e == FlushFails(id) then Returned(StdinClosed)
              else if e.Expires? then Writing(None)
              else Writing(Ends(e, id)))
  {}

  /**
   * A call still being written keeps a reply, or the end of the reader, until the writing is done, and then
   * returns it; a timeout does not touch it yet; a failed write returns the closed input whatever came before.
   */
  lemma {:induction false} WritingCallReturns(events: seq<Event>, e: Event, mid: seq<Event>, later: seq<Event>,
                                              id: RequestId)
    requires Stands(Run(events), id, Writing(None)) && Flushed(id) !in mid && FlushFails(id) !in mid
    ensures match e
            case Frame(target, reply) =>
              target == Some(id) ==>
                && Stands(Run(events + [e] + mid + [Flushed(id)] + later), id, Returned(Replied(reply)))
                && Stands(Run(events + [e] + mid + [FlushFails(id)] + later), id, Returned(StdinClosed))
            case ReaderExits =>
              Stands(Run(events + [e] + mid + [Flushed(id)] + later), id, Returned(ReaderClosed))
            case StopEnds =>
              Stands(Run(events + [e] + mid + [Flushed(id)] + later), id, Returned(ReaderClosed))
            case Flushed(target) => target == id ==> Stands(Run(events + [e]), id, Waiting)
            case FlushFails(target) => target == id ==> Stands(Run(events + [e] + later), id, Returned(StdinClosed))
            case _ => Stands(Run(events + [e]), id, Writing(None))
  {
    hide Step, Run, TableOk;
    RunAppend(events, e);
    RunKeepsTable(events);
    TableHolds(Run(events), id);
    WritingStep(Run(events), e, id);
    if e == FlushFails(id) {
      ReturnedStays(events + [e], later, id, StdinClosed);
    } else if e != Flushed(id) && !e.Expires? && Ends(e, id).Some? {
      EarlyStays(events + [e], mid, id, Ends(e, id).value);
      EarlyFlushed(events + [e] + mid, id, Ends(e, id).value, later);
    }
  }

  lemma {:induction false} EarlyFlushed(events: seq<Event>, id: RequestId, o: Outcome, later: seq<Event>)
    requires Stands(Run(events), id, Writing(Some(o)))
    ensures Stands(Run(events + [Flushed(id)] + later), id, Returned(o))
    ensures Stands(Run(events + [FlushFails(id)] + later), id, Returned(StdinClosed))
  {
    RunAppend(events, Flushed(id));
    RunAppend(events, FlushFails(id));
    ReturnedStays(events + [Flushed(id)], later, id, o);
    ReturnedStays(events + [FlushFails(id)], later, id, StdinClosed);
  }

  /** A new call gets the next id and is being written; a client that is closed or has lost its host admits none. */
  lemma {:induction false} NewCall(events: seq<Event>)
    ensures var h, n := Run(events), Run(events + [BeginCall]);
            if h.closed || h.processDead || h.readerDone then n == h
            else && n.nextId == h.nextId + 1 && h.nextId + 1 !in h.calls
                 && Stands(n, h.nextId + 1, Writing(None)) && h.nextId + 1 in n.pending
  {
    RunAppend(events, BeginCall);
    RunKeepsTable(events);
    TableHolds(Run(events), Run(events).nextId + 1);
  }

  // The event struck the call while it stood like this.
  ghost predicate Struck(events: seq<Event>, k: nat, e: Event, id: RequestId, waiting: bool) {
    && k < |events| && events[k] == e
    && id in Run(events[..k]).calls
    && if waiting then Run(events[..k]).calls[id] == Waiting else Run(events[..k]).calls[id].Writing?
  }

  lemma {:induction false} StruckBefore(events: seq<Event>, k: nat, e: Event, id: RequestId, waiting: bool)
    requires events != [] && k < |events| - 1
    ensures Struck(events[..|events| - 1], k, e, id, waiting) == Struck(events, k, e, id, waiting)
  {
    assert events[..|events| - 1][..k] == events[..k];
  }

  lemma {:induction false} FailureStep(h: Host, e: Event, id: RequestId)
    requires TableAt(h, id)
    ensures Stands(Step(h, e), id, Returned(TimedOut)) ==>
              || Stands(h, id, Returned(TimedOut)) || (e == Expires(id) && Stands(h, id, Waiting))
              || Stands(h, id, Writing(Some(TimedOut)))
    ensures Stands(Step(h, e), id, Returned(StdinClosed)) ==>
              || Stands(h, id, Returned(StdinClosed)) || (e == FlushFails(id) && id in h.calls && h.calls[id].Writing?)
              || Stands(h, id, Writing(Some(StdinClosed)))
    ensures Stands(h, id, Writing(Some(TimedOut))) || !Stands(Step(h, e), id, Writing(Some(TimedOut)))
    ensures Stands(h, id, Writing(Some(StdinClosed))) || !Stands(Step(h, e), id, Writing(Some(StdinClosed)))
  {}

  lemma {:induction false} NoEarlyFailure(events: seq<Event>, id: RequestId)
    ensures !Stands(Run(events), id, Writing(Some(TimedOut))) && !Stands(Run(events), id, Writing(Some(StdinClosed)))
  {
    if events != [] {
      var earlier := events[..|events| - 1];
      NoEarlyFailure(earlier, id);
      RunKeepsTable(earlier);
      TableHolds(Run(earlier), id);
      FailureStep(Run(earlier), events[|events| - 1], id);
    }
  }

  /** A call timed out if and only if its own timeout struck it while it was waiting. */
  lemma {:induction false} TimedOutIff(events: seq<Event>, id: RequestId)
    ensures Stands(Run(events), id, Returned(TimedOut)) <==> exists k: nat :: Struck(events, k, Expires(id), id, true)
  {
    if k: nat :| Struck(events, k, Expires(id), id, true) {
      assert events == events[..k] + [events[k]] + events[k + 1..];
      WaitingCallReturns(events[..k], Expires(id), events[k + 1..], id);
    }
    if Stands(Run(events), id, Returned(TimedOut)) {
      var k := TimeoutStruck(events, id);
    }
  }

  lemma {:induction false} TimeoutStruck(events: seq<Event>, id: RequestId) returns (k: nat)
    requires Stands(Run(events), id, Returned(TimedOut))
    ensures Struck(events, k, Expires(id), id, true)
  {
    var earlier, e := events[..|events| - 1], events[|events| - 1];
    RunKeepsTable(earlier);
    TableHolds(Run(earlier), id);
    NoEarlyFailure(earlier, id);
    FailureStep(Run(earlier), e, id);
    if Stands(Run(earlier), id, Returned(TimedOut)) {
      k := TimeoutStruck(earlier, id);
      StruckBefore(events, k, Expires(id), id, true);
    } else {
      k := |events| - 1;
    }
  }

  /** A call failed on the closed input if and only if writing it failed. */
  lemma {:induction false} StdinClosedIff(events: seq<Event>, id: RequestId)
    ensures Stands(Run(events), id, Returned(StdinClosed)) <==>
              exists k: nat :: Struck(events, k, FlushFails(id), id, false)
  {
    if k: nat :| Struck(events, k, FlushFails(id), id, false) {
      assert events == events[..k] + [events[k]] + events[k + 1..];
      RunAppend(events[..k], FlushFails(id));
      ReturnedStays(events[..k] + [FlushFails(id)], events[k + 1..], id, StdinClosed);
    }
    if Stands(Run(events), id, Returned(StdinClosed)) {
      var k := FailureStruck(events, id);
    }
  }

  lemma {:induction false} FailureStruck(events: seq<Event>, id: RequestId) returns (k: nat)
    requires Stands(Run(events), id, Returned(StdinClosed))
    ensures Struck(events, k, FlushFails(id), id, false)
  {
    var earlier, e := events[..|events| - 1], events[|events| - 1];
    RunKeepsTable(earlier);
    TableHolds(Run(earlier), id);
    NoEarlyFailure(earlier, id);
    FailureStep(Run(earlier), e, id);
    if Stands(Run(earlier), id, Returned(StdinClosed)) {
      k := FailureStruck(earlier, id);
      StruckBefore(events, k, FlushFails(id), id, false);
    } else {
      k := |events| - 1;
    }
  }

  // ---------------------------------------------------------------------

  /** The client object; its methods are the stretches of code between two awaits. */
  class RpcClient {
    var nextId: nat
    var pending: set<RequestId>
    var calls: map<RequestId, Call>
    var closed: bool
    var processDead: bool
    var readerDone: bool

    function State(): Host
      reads this
    {
      Host(nextId, pending, calls, closed, processDead, readerDone)
    }

    constructor ()
      ensures State() == Running
    {
      nextId, pending, calls := 0, {}, map[];
      closed, processDead, readerDone := false, false, false;
    }

    method Begin() returns (id: Option<RequestId>)
      modifies this`nextId, this`pending, this`calls
      ensures State() == Step(old(State()), BeginCall)
      ensures id == if Admits(old(State())) then Some(old(nextId) + 1) else None
    {
      if closed || processDead || readerDone {
        return None;
      }
      nextId := nextId + 1;
      calls := calls[nextId := Writing(None)];
      pending := pending + {nextId};
      return Some(nextId);
    }

    method OnFrame(id: Option<RequestId>, reply: Reply) returns (matched: bool)
      requires TableOk(State())
      modifies this`pending, this`calls
      ensures State() == Step(old(State()), Frame(id, reply))
      ensures matched <==> id.Some? && id.value in old(pending)
    {
      if id.None? || id.value !in pending {
        return false;
      }
      pending := pending - {id.value};
      calls := calls[id.value := Resolved(calls[id.value], Replied(reply))];
      return true;
    }

    method OnFlushed(id: RequestId)
      requires id in calls && calls[id].Writing?
      modifies this`calls
      ensures State() == Step(old(State()), Flushed(id))
    {
      var early := calls[id].early;
      calls := calls[id := if early.Some? then Returned(early.value) else Waiting];
    }

    method OnTimeout(id: RequestId)
      requires id in calls && calls[id] == Waiting
      modifies this`pending, this`calls
      ensures State() == Step(old(State()), Expires(id))
    {
      pending := pending - {id};
      calls := calls[id := Returned(TimedOut)];
    }

    method OnFlushFailure(id: RequestId)
      requires id in calls && calls[id].Writing?
      modifies this`pending, this`calls
      ensures State() == Step(old(State()), FlushFails(id))
    {
      pending := pending - {id};
      calls := calls[id := Returned(StdinClosed)];
    }

    method FailPending(o: Outcome)
      requires TableOk(State())
      modifies this`pending, this`calls
      ensures State() == ResolveAll(old(State()), o)
    {
      var waiting := pending;
      while waiting != {}
        invariant waiting <= pending == old(pending)
        invariant calls.Keys == old(calls).Keys
        invariant forall id | id in calls ::
          calls[id] == if id in pending && id !in waiting then Resolved(old(calls)[id], o) else old(calls)[id]
      {
        var id :| id in waiting;
        calls := calls[id := Resolved(calls[id], o)];
        waiting := waiting - {id};
      }
      pending := {};
    }

    method OnReaderExit()
      requires TableOk(State())
      modifies this`pending, this`calls, this`readerDone
      ensures State() == Step(old(State()), ReaderExits)
    {
      FailPending(ReaderClosed);
      readerDone := true;
    }

    // The last part of stop: the process is gone, the reader is cancelled and runs its own clean-up.
    method FinishStop()
      requires TableOk(State()) && closed
      modifies this
      ensures State() == Step(old(State()), StopEnds)
    {
      processDead := true;
      StepKeepsTable(State(), ReaderExits);
      OnReaderExit();
      FailPending(ShutDown);
    }
  }
}
