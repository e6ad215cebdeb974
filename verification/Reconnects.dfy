/** Status reports and notifications together: what idle disconnects and reconnects announce. */
module Reconnects {
  import opened Prelude
  import opened Models
  import opened PreparationStages
  import opened StatusReports
  import opened Notifications

  // One idle disconnect, the reconnect after it, and the report it brings.
  function Cycle(s: PrinterStatus, p: Payload, gcode: string, h: HoldOff): PrinterStatus {
    Applied(Back(Lost(s)), p, gcode, h)
  }

  // The status after a number of cycles, all bringing the same report; the hold-offs may answer anything.
  function Cycled(s: PrinterStatus, p: Payload, gcode: string, hs: seq<HoldOff>): PrinterStatus {
    if hs == [] then s else Cycle(Cycled(s, p, gcode, hs[..|hs| - 1]), p, gcode, hs[|hs| - 1])
  }

  // What the hub detects in them: it is told of reports only.
  function CycleEvents(s: PrinterStatus, p: Payload, gcode: string, hs: seq<HoldOff>): seq<Event> {
    if hs == [] then []
    else
      var before := Cycled(s, p, gcode, hs[..|hs| - 1]);
      CycleEvents(s, p, gcode, hs[..|hs| - 1]) + DetectEvents(Back(Lost(before)), Cycle(before, p, gcode, hs[|hs| - 1]))
  }

  // The same cycles as events of the status object.
  function CycleSteps(p: Payload, hs: seq<HoldOff>): seq<StatusEvent> {
    if hs == [] then []
    else CycleSteps(p, hs[..|hs| - 1]) + [Disconnected] + [Connected] + [Reported(p, hs[|hs| - 1])]
  }

  /** Reconnecting over and over is one run of the status object: offline, online and the report, each time anew. */
  lemma {:induction false} CyclesAreEvents(s: PrinterStatus, p: Payload, gcode: string, hs: seq<HoldOff>)
    requires GcodeAfter(gcode, p) == gcode
    ensures Folded(s, CycleSteps(p, hs), gcode) == Cycled(s, p, gcode, hs)
    ensures FoldedGcode(CycleSteps(p, hs), gcode) == gcode
  {
    hide Applied, GcodeAfter;
    if hs != [] {
      var steps := CycleSteps(p, hs[..|hs| - 1]);
      CyclesAreEvents(s, p, gcode, hs[..|hs| - 1]);
      FoldedLast(s, steps, Disconnected, gcode);
      FoldedLast(s, steps + [Disconnected], Connected, gcode);
      FoldedLast(s, steps + [Disconnected] + [Connected], Reported(p, hs[|hs| - 1]), gcode);
      FoldedGcodeLast(steps, Disconnected, gcode);
      FoldedGcodeLast(steps + [Disconnected], Connected, gcode);
      FoldedGcodeLast(steps + [Disconnected] + [Connected], Reported(p, hs[|hs| - 1]), gcode);
    }
  }

  // A status this report leaves alone, hold-offs aside, by whatever it was brought about.
  predicate Settled(t: PrinterStatus, p: Payload, gcode: string) {
    && t.online
    && Redetermines(p)
    && ShownState(t, p, gcode) == Derived(t.state, t.stageCategory, t.stageName)
    && KeptJob(JobAfter(t.job, p), t.state) == t.job
    && (p.hms.Some? ==> Parsed(p.hms.value) == t.hmsCodes)
    && t.state != Offline
  }

  lemma {:induction false} ReportSettles(s: PrinterStatus, p: Payload, gcode: string, h: HoldOff)
    requires Redetermines(p) && s.online
    ensures Settled(Applied(s, p, gcode, h), p, GcodeAfter(gcode, p))
  {
    var t, g := Applied(s, p, gcode, h), GcodeAfter(gcode, p);
    var before := JobAfter(s.job, p);
    StateTable(g, NumberOr(p.stage, s.stgCur), if before.Some? then before.value.currentLayer else 0);
    ReplayIsHarmless(s, p, gcode, h);
    assert Applied(t, p, g, h) == t && GcodeAfter(g, p) == g;
    hide DetermineState, Parsed, BitEnabled;
  }

  // What the notifications look at.
  predicate SameShown(a: PrinterStatus, b: PrinterStatus) {
    a.id == b.id && a.online == b.online && a.state == b.state && a.job == b.job && a.hmsCodes == b.hmsCodes
  }

  lemma {:induction false} CycleRestores(t: PrinterStatus, p: Payload, gcode: string, h: HoldOff)
    requires Settled(t, p, gcode) && GcodeAfter(gcode, p) == gcode
    ensures var n := Cycle(t, p, gcode, h);
            SameShown(n, t) && Settled(n, p, gcode)
  {
    hide DetermineState, Parsed, BitEnabled;
  }

  lemma {:induction false} CyclesRestore(t: PrinterStatus, p: Payload, gcode: string, hs: seq<HoldOff>)
    requires Settled(t, p, gcode) && GcodeAfter(gcode, p) == gcode
    ensures var n := Cycled(t, p, gcode, hs);
            SameShown(n, t) && Settled(n, p, gcode)
  {
    hide Settled;
    if hs != [] {
      CyclesRestore(t, p, gcode, hs[..|hs| - 1]);
      CycleRestores(Cycled(t, p, gcode, hs[..|hs| - 1]), p, gcode, hs[|hs| - 1]);
    }
  }

  lemma {:induction false} NoNewCodes(prev: PrinterStatus, next: PrinterStatus, codes: seq<HmsCode>)
    requires forall code | code in codes :: code in prev.hmsCodes
    ensures HmsEvents(prev, next, codes) == []
  {
    if codes != [] {
      NoNewCodes(prev, next, codes[..|codes| - 1]);
      assert codes[|codes| - 1] in codes;
    }
  }

  // A reconnect rediscovers the transition into the state, and nothing else.
  lemma {:induction false} CycleDetects(t: PrinterStatus, p: Payload, gcode: string, h: HoldOff, kind: EventType)
    requires Settled(t, p, gcode) && GcodeAfter(gcode, p) == gcode && TransitionEvent(Offline, t.state) == Some(kind)
    ensures var n := Cycle(t, p, gcode, h);
            DetectEvents(Back(Lost(t)), n) == [Event(kind, t.id, n, "")]
  {
    CycleRestores(t, p, gcode, h);
    var n := Cycle(t, p, gcode, h);
    NoNewCodes(Back(Lost(t)), n, n.hmsCodes);
    hide Settled, Applied, HmsEvents;
    assert TransitionEvents(Back(Lost(t)), n) == [Event(kind, t.id, n, "")];
  }

  // The k-th event rediscovers the same print.
  lemma {:induction false} CyclesDetect(t: PrinterStatus, p: Payload, gcode: string, hs: seq<HoldOff>, kind: EventType)
    requires Settled(t, p, gcode) && GcodeAfter(gcode, p) == gcode && TransitionEvent(Offline, t.state) == Some(kind)
    ensures var events := CycleEvents(t, p, gcode, hs);
            |events| == |hs| && forall e | e in events :: Rediscovers(e, t, kind)
  {
    hide Settled, TransitionEvent, DetectEvents, Cycle, SameShown, Rediscovers;
    if hs != [] {
      var earlier := hs[..|hs| - 1];
      CyclesDetect(t, p, gcode, earlier, kind);
      CyclesRestore(t, p, gcode, earlier);
      var before := Cycled(t, p, gcode, earlier);
      SameState(before, t);
      CycleDetects(before, p, gcode, hs[|hs| - 1], kind);
      CycleRestores(before, p, gcode, hs[|hs| - 1]);
      OneRediscovers(before, Cycle(before, p, gcode, hs[|hs| - 1]), t, kind);
    }
  }

  lemma SameState(a: PrinterStatus, b: PrinterStatus)
    requires SameShown(a, b)
    ensures a.state == b.state && a.id == b.id
  {}

  predicate Rediscovers(e: Event, t: PrinterStatus, kind: EventType) {
    e.kind == kind && e.printer == t.id && e.hmsCode == "" && e.snapshot.job == t.job
  }

  lemma OneRediscovers(before: PrinterStatus, n: PrinterStatus, t: PrinterStatus, kind: EventType)
    requires SameShown(before, t) && SameShown(n, before)
    ensures Rediscovers(Event(kind, before.id, n, ""), t, kind)
  {}

  // ---------------------------------------------------------------------
  // When a print's transition is announced again.

  function Arrivals(events: seq<Event>, times: seq<(real, real)>): seq<Arrival>
    requires |times| == |events|
  {
    seq(|events|, i requires 0 <= i < |events| => Arrival(events[i], times[i].0, times[i].1))
  }

  predicate AtMostOnce(log: seq<Entry>, kind: EventType) {
    forall i, j | 0 <= i < j < |log| && log[i].arrival.event.kind == log[j].arrival.event.kind == kind ::
      !(log[i].verdict == Dispatched && log[j].verdict == Dispatched)
  }

  // Whenever the events are handled, at most one of this type is announced.
  ghost predicate NeverTwice(events: seq<Event>, kind: EventType) {
    forall times | |times| == |events| && Monotone(Arrivals(events, times)) ::
      AtMostOnce(HandleAll(Arrivals(events, times)).1, kind)
  }

  // The transition's own events are its first one and its rediscoveries.
  predicate AllRediscover(events: seq<Event>, t: PrinterStatus, kind: EventType) {
    forall e | e in events && e.kind == kind :: Rediscovers(e, t, kind)
  }

  lemma JobsDecideFingerprints(a: PrinterStatus, b: PrinterStatus)
    ensures a.job == b.job ==> JobFingerprint(a) == JobFingerprint(b)
    ensures a.job.Some? <==> JobFingerprint(a) != ""
  {
    if a.job.Some? {
      assert |JobFingerprint(a)| >= 1;
    }
  }

  lemma {:induction false} KnownPrintOnce(events: seq<Event>, t: PrinterStatus, kind: EventType)
    requires AllRediscover(events, t, kind) && IsTransition(kind) && t.job.Some?
    ensures NeverTwice(events, kind)
  {
    hide JobFingerprint, AtMostOnce, Monotone, HandleAll, IsTransition;
    forall times | |times| == |events| && Monotone(Arrivals(events, times))
      ensures AtMostOnce(HandleAll(Arrivals(events, times)).1, kind)
    {
      KnownPrintOnceAt(events, times, t, kind);
    }
  }

  lemma {:induction false} KnownPrintOnceAt(events: seq<Event>, times: seq<(real, real)>, t: PrinterStatus,
                                            kind: EventType)
    requires AllRediscover(events, t, kind) && IsTransition(kind) && t.job.Some?
    requires |times| == |events| && Monotone(Arrivals(events, times))
    ensures AtMostOnce(HandleAll(Arrivals(events, times)).1, kind)
  {
    hide JobFingerprint, Monotone, HandleAll, IsTransition;
    var arrivals := Arrivals(events, times);
    var log := HandleAll(arrivals).1;
    HandleAllAgrees(arrivals);
    forall i, j | 0 <= i < j < |log| && log[i].arrival.event.kind == log[j].arrival.event.kind == kind
      ensures log[j].verdict != Dispatched
    {
      TablesEqualLogSearch(arrivals, i);
      TablesEqualLogSearch(arrivals, j);
      forall m | 0 <= m < |arrivals| && arrivals[m].event.kind == kind
        ensures Fingerprinted(arrivals[m].event) && JobFingerprint(arrivals[m].event.snapshot) == JobFingerprint(t)
      {
        assert arrivals[m].event == events[m] && events[m] in events;
        JobsDecideFingerprints(events[m].snapshot, t);
      }
      assert events[i] in events && events[j] in events;
      RediscoveryIsSilent(arrivals, i, j);
    }
  }

  // A schedule with more than thirty seconds from each event to the next.
  function Spaced(n: nat): seq<(real, real)> {
    seq(n, i requires 0 <= i < n => (31.0 * i as real, 31.0 * i as real))
  }

  lemma {:induction false} SpacedApart(events: seq<Event>, i: nat, j: nat)
    requires i < j < |events|
    ensures var arrivals := Arrivals(events, Spaced(|events|));
            Monotone(arrivals) && arrivals[j].now - arrivals[i].now > DEDUPE_SECONDS
  {}

  lemma {:induction false} SpacedAreDispatched(events: seq<Event>, j: nat)
    requires j < |events| && !Fingerprinted(events[j]) && events[j].kind != ProgressTick
    ensures var arrivals := Arrivals(events, Spaced(|events|));
            Monotone(arrivals) && |HandleAll(arrivals).1| == |events| && HandleAll(arrivals).1[j].verdict == Dispatched
  {
    hide JobFingerprint, Fingerprinted, KeyOf;
    var arrivals := Arrivals(events, Spaced(|events|));
    assert Monotone(arrivals);
    HandleAllAgrees(arrivals);
    TablesEqualLogSearch(arrivals, j);
    var before, key := HandleAll(arrivals).1[..j], KeyOf(events[j]);
    forall i | 0 <= i < |before| && LetThrough(before[i], key)
      ensures arrivals[j].now - before[i].arrival.now > DEDUPE_SECONDS
    {
      TablesEqualLogSearch(arrivals, i);
      SpacedApart(events, i, j);
    }
    NotRecently(before, key, arrivals[j].now);
  }

  lemma {:induction false} UnknownPrintTwice(events: seq<Event>, t: PrinterStatus, kind: EventType, i: nat, j: nat)
    requires AllRediscover(events, t, kind) && IsTransition(kind) && t.job.None?
    requires i < j < |events| && events[i].kind == events[j].kind == kind
    ensures !NeverTwice(events, kind)
  {
    hide Monotone, HandleAll;
    assert events[i] in events && events[j] in events;
    SpacedAreDispatched(events, i);
    SpacedAreDispatched(events, j);
    var arrivals := Arrivals(events, Spaced(|events|));
    TablesEqualLogSearch(arrivals, i);
    TablesEqualLogSearch(arrivals, j);
    assert !AtMostOnce(HandleAll(arrivals).1, kind);
  }

  // Everything detected: the transition itself, then one rediscovery for each cycle.
  function Story(s: PrinterStatus, p: Payload, gcode: string, h: HoldOff, hs: seq<HoldOff>): seq<Event> {
    var t := Applied(s, p, gcode, h);
    DetectEvents(s, t) + CycleEvents(t, p, GcodeAfter(gcode, p), hs)
  }

  lemma {:induction false} FirstDetection(s: PrinterStatus, t: PrinterStatus, kind: EventType)
    requires s.state != t.state && TransitionEvent(s.state, t.state) == Some(kind)
    ensures var events := DetectEvents(s, t);
            && events != [] && events[0] == Event(kind, t.id, t, "")
            && IsTransition(kind)
            && forall e | e in events && e.kind == kind :: Rediscovers(e, t, kind)
  {
    forall e | e in DetectEvents(s, t) && e.kind == kind ensures Rediscovers(e, t, kind) {
      DetectedEventsAre(s, t, e);
    }
  }

  /**
   * Idle disconnects and reconnects after a print's transition, any number of them, each followed by the same
   * report, whatever the hold-offs: in every schedule the transition is announced at most once, if and only
   * if the report left a job to tell the print by. Without one (none was known, or it was dropped at rest for
   * having made no progress) reconnecting more than thirty seconds later announces it again.
   */
  lemma {:induction false} ReconnectsAnnounceOnceIff(s: PrinterStatus, p: Payload, gcode: string, h: HoldOff,
                                                     hs: seq<HoldOff>, kind: EventType)
    requires Redetermines(p) && s.online && hs != []
    requires var t := Applied(s, p, gcode, h);
             s.state != t.state && TransitionEvent(s.state, t.state) == TransitionEvent(Offline, t.state) == Some(kind)
    ensures NeverTwice(Story(s, p, gcode, h, hs), kind) <==>
              var job := JobAfter(s.job, p);
              job.Some? && !(AtRest(Applied(s, p, gcode, h).state) && job.value.progress == 0)
  {
    hide Applied, DetectEvents, CycleEvents, Rediscovers, NeverTwice, IsTransition, Settled, TransitionEvent;
    var t, g := Applied(s, p, gcode, h), GcodeAfter(gcode, p);
    ReportSettles(s, p, gcode, h);
    CyclesDetect(t, p, g, hs, kind);
    FirstDetection(s, t, kind);
    JobKept(s, p, gcode, h);
    var events, first := Story(s, p, gcode, h, hs), DetectEvents(s, t);
    forall e | e in events && e.kind == kind ensures Rediscovers(e, t, kind) {
      assert e in first || e in CycleEvents(t, p, g, hs);
    }
    if t.job.Some? {
      KnownPrintOnce(events, t, kind);
    } else {
      var again := CycleEvents(t, p, g, hs)[0];
      assert events[|first|] == again && again in CycleEvents(t, p, g, hs);
      RediscoversKind(again, t, kind);
      UnknownPrintTwice(events, t, kind, 0, |first|);
    }
  }

  lemma RediscoversKind(e: Event, t: PrinterStatus, kind: EventType)
    requires Rediscovers(e, t, kind)
    ensures e.kind == kind
  {}

  lemma JobKept(s: PrinterStatus, p: Payload, gcode: string, h: HoldOff)
    ensures var t := Applied(s, p, gcode, h); t.job == KeptJob(JobAfter(s.job, p), t.state)
  {
    hide DetermineState, Parsed, BitEnabled;
  }

  /**
   * The alert for a printer that goes offline while printing is never detected: the hub is told of reports
   * only, a LAN report leaves the online flag alone, and a cloud report sets it.
   */
  lemma {:induction false} OfflineAlertNeverComes(s: PrinterStatus, p: Payload, gcode: string, h: HoldOff, e: Event)
    ensures e in DetectEvents(s, Applied(s, p, gcode, h)) ==> e.kind != PrinterOfflineActive
    ensures e in DetectEvents(s, Applied(Back(s), p, gcode, h)) ==> e.kind != PrinterOfflineActive
  {
    var lan, cloud := Applied(s, p, gcode, h), Applied(Back(s), p, gcode, h);
    DetectedEventsAre(s, lan, e);
    DetectedEventsAre(s, cloud, e);
    hide DetermineState, Parsed, BitEnabled;
  }
}
