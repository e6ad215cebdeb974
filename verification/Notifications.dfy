/** Which printer events become notifications: detection, then three filters over what was handled before. */
module Notifications {
  import opened Prelude
  import opened Text
  import opened Models

  datatype EventType =
    | PrintStarted | PrintPaused | PrintResumed | PrintFinished | PrintCancelled | PrintFailed
    | PrinterOfflineActive | HmsWarning | ProgressTick

  datatype Event = Event(kind: EventType, printer: string, snapshot: PrinterStatus, hmsCode: string)

  const DEDUPE_SECONDS := 30.0
  const PROGRESS_THROTTLE_SECONDS := 10.0

  // ---------------------------------------------------------------------
  // Detection

  predicate Active(state: PrinterState) {
    state in {Printing, Paused, Preparing}
  }

  function TransitionEvent(prev: PrinterState, next: PrinterState): Option<EventType> {
    if next == Printing then Some(if prev == Paused then PrintResumed else PrintStarted)
    else if next == Paused && prev == Printing then Some(PrintPaused)
    else if next == Finished then Some(PrintFinished)
    else if next == Cancelled then Some(PrintCancelled)
    else if next == Error then Some(PrintFailed)
    else None
  }

  predicate NewCode(prev: PrinterStatus, code: HmsCode) {
    forall known | known in prev.hmsCodes :: known.attr != code.attr
  }

  function HmsEvents(prev: PrinterStatus, next: PrinterStatus, codes: seq<HmsCode>): seq<Event> {
    if codes == [] then []
    else
      HmsEvents(prev, next, codes[..|codes| - 1]) +
      var code := codes[|codes| - 1];
      if NewCode(prev, code) then [Event(HmsWarning, next.id, next, code.attr)] else []
  }

  function Distance(a: int, b: int): nat {
    if a < b then b - a else a - b
  }

  predicate Ticks(prev: PrinterStatus, next: PrinterStatus) {
    var before := if prev.job.Some? then prev.job.value else PrintJob("", 0, 0, 0, 0, "");
    && next.job.Some?
    && (|| Distance(next.job.value.progress, before.progress) >= 1
        || next.job.value.currentLayer != before.currentLayer
        || Distance(next.job.value.remainingMinutes, before.remainingMinutes) >= 5)
  }

  function TransitionEvents(prev: PrinterStatus, next: PrinterStatus): seq<Event> {
    var kind := if prev.state != next.state then TransitionEvent(prev.state, next.state) else None;
    if kind.Some? then [Event(kind.value, next.id, next, "")] else []
  }

  function OfflineEvents(prev: PrinterStatus, next: PrinterStatus): seq<Event> {
    if prev.online && !next.online && Active(prev.state) then [Event(PrinterOfflineActive, next.id, next, "")] else []
  }

  function DetectEvents(prev: PrinterStatus, next: PrinterStatus): seq<Event> {
    var events := TransitionEvents(prev, next) + OfflineEvents(prev, next) + HmsEvents(prev, next, next.hmsCodes);
    if events == [] && prev.state == Printing && next.state == Printing && next.online && Ticks(prev, next)
    then [Event(ProgressTick, next.id, next, "")] else events
  }

  lemma {:induction false} HmsEventsAre(prev: PrinterStatus, next: PrinterStatus, codes: seq<HmsCode>, e: Event)
    ensures e in HmsEvents(prev, next, codes) <==>
            exists code | code in codes :: NewCode(prev, code) && e == Event(HmsWarning, next.id, next, code.attr)
  {
    if codes != [] {
      HmsEventsAre(prev, next, codes[..|codes| - 1], e);
    }
  }

  /** Exactly which events a change of status yields; a progress tick only ever comes alone. */
  lemma DetectedEventsAre(prev: PrinterStatus, next: PrinterStatus, e: Event)
    ensures var events := DetectEvents(prev, next);
            e in events <==>
            && e.printer == next.id && e.snapshot == next
            && match e.kind
               case HmsWarning =>
                 exists code | code in next.hmsCodes :: NewCode(prev, code) && e.hmsCode == code.attr
               case PrinterOfflineActive =>
                 e.hmsCode == "" && prev.online && !next.online && prev.state in {Printing, Paused, Preparing}
               case ProgressTick =>
                 && e.hmsCode == "" && events == [e]
                 && prev.state == next.state == Printing && next.online && Ticks(prev, next)
               case PrintStarted => e.hmsCode == "" && next.state == Printing && prev.state !in {Printing, Paused}
               case PrintResumed => e.hmsCode == "" && next.state == Printing && prev.state == Paused
               case PrintPaused => e.hmsCode == "" && next.state == Paused && prev.state == Printing
               case PrintFinished => e.hmsCode == "" && next.state == Finished && prev.state != Finished
               case PrintCancelled => e.hmsCode == "" && next.state == Cancelled && prev.state != Cancelled
               case PrintFailed => e.hmsCode == "" && next.state == Error && prev.state != Error
  {
    hide Ticks;
    HmsEventsAre(prev, next, next.hmsCodes, e);
    assert IsTransition(e.kind) ==> (e in DetectEvents(prev, next) <==> e in TransitionEvents(prev, next));
    assert e in TransitionEvents(prev, next) <==>
           && prev.state != next.state && TransitionEvent(prev.state, next.state) == Some(e.kind)
           && e == Event(e.kind, next.id, next, "");
  }

  /**
   * A print that goes on under one state and with no new code ticks exactly when it has moved: the percentage or
   * the layer at all, the estimate by five minutes or more; a print seen for the first time counts from zero.
   */
  lemma {:induction false} TicksWhenMoved(prev: PrinterStatus, next: PrinterStatus)
    requires prev.state == next.state == Printing && next.online && next.job.Some?
    requires forall code | code in next.hmsCodes :: exists known | known in prev.hmsCodes :: known.attr == code.attr
    ensures var job := next.job.value;
            DetectEvents(prev, next) == [Event(ProgressTick, next.id, next, "")] <==>
            if prev.job.None? then
              job.progress != 0 || job.currentLayer != 0 || job.remainingMinutes >= 5 || job.remainingMinutes <= -5
            else
              var before := prev.job.value;
              !(&& job.progress == before.progress && job.currentLayer == before.currentLayer
                && before.remainingMinutes - 5 < job.remainingMinutes < before.remainingMinutes + 5)
  {
    var hms := HmsEvents(prev, next, next.hmsCodes);
    if hms != [] {
      HmsEventsAre(prev, next, next.hmsCodes, hms[0]);
    }
    assert hms == [];
  }

  // ---------------------------------------------------------------------
  // Filters

  predicate IsTransition(kind: EventType) {
    kind !in {PrinterOfflineActive, HmsWarning, ProgressTick}
  }

  function JobFingerprint(status: PrinterStatus): string {
    if status.job.None? then ""
    else if status.job.value.gcodeStartTime != "" then "start:" + status.job.value.gcodeStartTime
    else "name:" + status.job.value.fileName + "|layers:" + Decimal(status.job.value.totalLayers)
  }

  // Whether the fingerprint filter looks at the event at all.
  predicate Fingerprinted(e: Event) {
    IsTransition(e.kind) && JobFingerprint(e.snapshot) != ""
  }

  datatype DedupeKey = DedupeKey(printer: string, kind: EventType, suffix: string)

  function KeyOf(e: Event): DedupeKey {
    DedupeKey(e.printer, e.kind, if e.hmsCode != "" then e.hmsCode else JobFingerprint(e.snapshot))
  }

  datatype Verdict = FingerprintDuplicate | Deduped | Throttled | Dispatched

  datatype Hub = Hub(
    dedupe: map<DedupeKey, real>,
    lastProgress: map<string, real>,
    lastFired: Fired)

  type Fired = map<string, map<EventType, string>>

  function FiredFor(fired: Fired, printer: string): map<EventType, string> {
    if printer in fired then fired[printer] else map[]
  }

  predicate FingerprintRepeats(fired: Fired, e: Event) {
    && Fingerprinted(e)
    && e.kind in FiredFor(fired, e.printer)
    && FiredFor(fired, e.printer)[e.kind] == JobFingerprint(e.snapshot)
  }

  function RecordFingerprint(fired: Fired, e: Event): Fired {
    if Fingerprinted(e)
    then fired[e.printer := FiredFor(fired, e.printer)[e.kind := JobFingerprint(e.snapshot)]]
    else fired
  }

  function Purged(dedupe: map<DedupeKey, real>, now: real): map<DedupeKey, real> {
    map k | k in dedupe && !(now - dedupe[k] > DEDUPE_SECONDS) :: dedupe[k]
  }

  predicate TooSoon(lastProgress: map<string, real>, printer: string, now: real) {
    now - (if printer in lastProgress then lastProgress[printer] else 0.0) < PROGRESS_THROTTLE_SECONDS
  }

  // The dedupe check reads the clock at now, the throttle reads it again at later.
  function Handle(h: Hub, e: Event, now: real, later: real): (Hub, Verdict) {
    if FingerprintRepeats(h.lastFired, e) then (h, FingerprintDuplicate)
    else
      var purged := Hub(Purged(h.dedupe, now), h.lastProgress, RecordFingerprint(h.lastFired, e));
      if e.kind != ProgressTick then
        if KeyOf(e) in purged.dedupe then (purged, Deduped)
        else (purged.(dedupe := purged.dedupe[KeyOf(e) := now]), Dispatched)
      else if TooSoon(purged.lastProgress, e.printer, later) then (purged, Throttled)
      else (purged.(lastProgress := purged.lastProgress[e.printer := later]), Dispatched)
  }

  // ---------------------------------------------------------------------
  // What a fingerprint tells apart.

  // Two jobs of one run: by the start time as soon as either has one, else by file and layers.
  predicate SameRun(a: PrintJob, b: PrintJob) {
    if a.gcodeStartTime != "" || b.gcodeStartTime != "" then a.gcodeStartTime == b.gcodeStartTime
    else a.fileName == b.fileName && a.totalLayers == b.totalLayers
  }

  predicate IsDecimal(s: string) {
    s != "" && forall i | 0 <= i < |s| :: s[i] == '-' || '0' <= s[i] <= '9'
  }

  lemma {:induction false} DigitsAreDecimal(n: nat)
    ensures Digits(n) != "" && forall i | 0 <= i < |Digits(n)| :: '0' <= Digits(n)[i] <= '9'
  {
    if n >= 10 {
      DigitsAreDecimal(n / 10);
    }
  }

  lemma {:induction false} DigitsDiffer(a: nat, b: nat)
    requires Digits(a) == Digits(b)
    ensures a == b
  {
    DigitsAreDecimal(a / 10);
    DigitsAreDecimal(b / 10);
    assert a < 10 <==> |Digits(a)| == 1;
    assert b < 10 <==> |Digits(b)| == 1;
    if a >= 10 {
      assert b >= 10;
      var x, y := Digits(a / 10), Digits(b / 10);
      assert Digits(a)[..|x|] == x && Digits(b)[..|y|] == y;
      assert Digits(a)[|x|] == DigitChar(a % 10) && Digits(b)[|y|] == DigitChar(b % 10);
      DigitsDiffer(a / 10, b / 10);
    }
  }

  lemma {:induction false} DecimalsDiffer(a: int, b: int)
    ensures IsDecimal(Decimal(a))
    ensures Decimal(a) == Decimal(b) ==> a == b
  {
    DigitsAreDecimal(if a < 0 then -a else a);
    DigitsAreDecimal(if b < 0 then -b else b);
    assert Decimal(a)[0] == '-' <==> a < 0;
    assert Decimal(b)[0] == '-' <==> b < 0;
    if Decimal(a) == Decimal(b) {
      if a < 0 {
        assert Decimal(a)[1..] == Digits(-a) && Decimal(b)[1..] == Digits(-b);
        DigitsDiffer(-a, -b);
      } else {
        DigitsDiffer(a, b);
      }
    }
  }

  const LAYERS := "|layers:"

  // What follows the last colon tells where it stands.
  lemma {:induction false} ColonsStand(a: string, m: string, b: string, n: string)
    requires a != "" && b != "" && a[|a| - 1] == b[|b| - 1] == ':'
    requires (forall i | 0 <= i < |m| :: m[i] != ':') && (forall i | 0 <= i < |n| :: n[i] != ':')
    requires a + m == b + n
    ensures a == b && m == n
  {
    var whole := a + m;
    assert whole[|a| - 1] == ':' && whole[|b| - 1] == ':';
    assert forall i | |a| <= i < |whole| :: whole[i] == m[i - |a|];
    assert forall i | |b| <= i < |whole| :: whole[i] == n[i - |b|];
    assert |a| == |b|;
    assert whole[..|a|] == a && whole[..|b|] == b && whole[|a|..] == m && whole[|b|..] == n;
  }

  lemma {:induction false} NamesDiffer(f: string, m: string, g: string, n: string)
    requires IsDecimal(m) && IsDecimal(n) && f + LAYERS + m == g + LAYERS + n
    ensures f == g && m == n
  {
    var a, b := f + LAYERS, g + LAYERS;
    assert |LAYERS| == 8 && LAYERS[7] == ':';
    assert a[|a| - 1] == LAYERS[7] && b[|b| - 1] == LAYERS[7];
    ColonsStand(a, m, b, n);
    assert a[..|f|] == f && b[..|g|] == g;
  }

  /**
   * What a fingerprint tells apart: nothing without a job; else prints by their start times, as soon as either
   * has one, and prints without a start time by file name and number of layers.
   */
  lemma {:induction false} FingerprintsTellRunsApart(a: PrinterStatus, b: PrinterStatus)
    ensures JobFingerprint(a) == "" <==> a.job.None?
    ensures a.job.Some? && b.job.Some? ==>
              (JobFingerprint(a) == JobFingerprint(b) <==>
                 var x, y := a.job.value, b.job.value;
                 if x.gcodeStartTime != "" || y.gcodeStartTime != "" then x.gcodeStartTime == y.gcodeStartTime
                 else x.fileName == y.fileName && x.totalLayers == y.totalLayers)
  {
    if a.job.Some? {
      assert |JobFingerprint(a)| >= 1;
    }
    if a.job.Some? && b.job.Some? {
      var x, y := a.job.value, b.job.value;
      if x.gcodeStartTime != "" && y.gcodeStartTime != "" {
        assert JobFingerprint(a)[6..] == x.gcodeStartTime && JobFingerprint(b)[6..] == y.gcodeStartTime;
      } else if x.gcodeStartTime == "" && y.gcodeStartTime == "" {
        DecimalsDiffer(x.totalLayers, y.totalLayers);
        DecimalsDiffer(y.totalLayers, x.totalLayers);
        assert JobFingerprint(a)[5..] == x.fileName + LAYERS + Decimal(x.totalLayers);
        assert JobFingerprint(b)[5..] == y.fileName + LAYERS + Decimal(y.totalLayers);
        if JobFingerprint(a) == JobFingerprint(b) {
          NamesDiffer(x.fileName, Decimal(x.totalLayers), y.fileName, Decimal(y.totalLayers));
        }
      } else {
        assert JobFingerprint(a)[0] != JobFingerprint(b)[0];
      }
    }
  }

  // ---------------------------------------------------------------------
  // The reference: every decision read off the full log of what was handled before.

  datatype Arrival = Arrival(event: Event, now: real, later: real)

  datatype Entry = Entry(arrival: Arrival, verdict: Verdict)

  predicate SameTransition(x: Event, e: Event) {
    Fingerprinted(x) && x.printer == e.printer && x.kind == e.kind
  }

  // Fingerprint of the latest event of this kind on this printer, whatever became of it.
  function LastFingerprint(log: seq<Entry>, e: Event): Option<string> {
    if log == [] then None
    else
      var x := log[|log| - 1].arrival.event;
      if SameTransition(x, e) then Some(JobFingerprint(x.snapshot)) else LastFingerprint(log[..|log| - 1], e)
  }

  // The entry let through a non-tick event with this key.
  predicate LetThrough(x: Entry, key: DedupeKey) {
    x.verdict == Dispatched && x.arrival.event.kind != ProgressTick && KeyOf(x.arrival.event) == key
  }

  predicate RecentlyLetThrough(log: seq<Entry>, key: DedupeKey, now: real) {
    exists i | 0 <= i < |log| :: LetThrough(log[i], key) && now - log[i].arrival.now <= DEDUPE_SECONDS
  }

  predicate TickLetThrough(x: Entry, printer: string) {
    x.verdict == Dispatched && x.arrival.event.kind == ProgressTick && x.arrival.event.printer == printer
  }

  function LastTick(log: seq<Entry>, printer: string): Option<real> {
    if log == [] then None
    else if TickLetThrough(log[|log| - 1], printer) then Some(log[|log| - 1].arrival.later)
    else LastTick(log[..|log| - 1], printer)
  }

  // Before the first tick of a printer the clock itself must have reached the throttle interval.
  function Judge(log: seq<Entry>, a: Arrival): Verdict {
    var e := a.event;
    if Fingerprinted(e) && LastFingerprint(log, e) == Some(JobFingerprint(e.snapshot)) then FingerprintDuplicate
    else if e.kind != ProgressTick then
      if RecentlyLetThrough(log, KeyOf(e), a.now) then Deduped else Dispatched
    else if a.later - LastTick(log, e.printer).GetOr(0.0) < PROGRESS_THROTTLE_SECONDS then Throttled
    else Dispatched
  }

  function JudgeAll(arrivals: seq<Arrival>): (log: seq<Entry>)
    ensures |log| == |arrivals|
  {
    if arrivals == [] then []
    else
      var log := JudgeAll(arrivals[..|arrivals| - 1]);
      var a := arrivals[|arrivals| - 1];
      log + [Entry(a, Judge(log, a))]
  }

  function EmptyHub(): Hub {
    Hub(map[], map[], map[])
  }

  function HandleAll(arrivals: seq<Arrival>): (Hub, seq<Entry>) {
    if arrivals == [] then (EmptyHub(), [])
    else
      var (h, log) := HandleAll(arrivals[..|arrivals| - 1]);
      var a := arrivals[|arrivals| - 1];
      var (h', verdict) := Handle(h, a.event, a.now, a.later);
      (h', log + [Entry(a, verdict)])
  }

  // The clock never runs backwards.
  predicate Monotone(arrivals: seq<Arrival>) {
    && (forall i | 0 <= i < |arrivals| :: arrivals[i].now <= arrivals[i].later)
    && (forall i, j | 0 <= i < j < |arrivals| :: arrivals[i].later <= arrivals[j].now)
  }

  ghost predicate FingerprintsAgree(fired: Fired, log: seq<Entry>) {
    forall e: Event ::
      LastFingerprint(log, e) == if e.kind in FiredFor(fired, e.printer)
        then Some(FiredFor(fired, e.printer)[e.kind]) else None
  }

  ghost predicate TicksAgree(lastProgress: map<string, real>, log: seq<Entry>) {
    forall printer ::
      LastTick(log, printer) == if printer in lastProgress then Some(lastProgress[printer]) else None
  }

  // The table forgets only entries that are out of date at the given time.
  ghost predicate TableAgrees(dedupe: map<DedupeKey, real>, log: seq<Entry>, clock: real) {
    && (forall k | k in dedupe ::
          exists i | 0 <= i < |log| :: LetThrough(log[i], k) && log[i].arrival.now == dedupe[k])
    && (forall i, k | 0 <= i < |log| && LetThrough(log[i], k) && clock - log[i].arrival.now <= DEDUPE_SECONDS ::
          k in dedupe && log[i].arrival.now <= dedupe[k])
  }

  lemma TableDecides(dedupe: map<DedupeKey, real>, log: seq<Entry>, clock: real, now: real, key: DedupeKey)
    requires TableAgrees(dedupe, log, clock) && clock <= now
    ensures key in Purged(dedupe, now) <==> RecentlyLetThrough(log, key, now)
    ensures TableAgrees(Purged(dedupe, now), log, now)
  {
    hide KeyOf;
    var purged := Purged(dedupe, now);
    if key in purged {
      var i :| 0 <= i < |log| && LetThrough(log[i], key) && log[i].arrival.now == dedupe[key];
    }
    forall i, k | 0 <= i < |log| && LetThrough(log[i], k) && now - log[i].arrival.now <= DEDUPE_SECONDS
      ensures k in purged && log[i].arrival.now <= purged[k]
    {}
  }

  lemma TableGrows(dedupe: map<DedupeKey, real>, log: seq<Entry>, x: Entry, now: real)
    requires TableAgrees(dedupe, log, now)
    requires forall i | 0 <= i < |log| :: log[i].arrival.now <= now
    requires x.arrival.now == now
    ensures x.verdict == Dispatched && x.arrival.event.kind != ProgressTick ==>
              TableAgrees(dedupe[KeyOf(x.arrival.event) := now], log + [x], now)
    ensures !(x.verdict == Dispatched && x.arrival.event.kind != ProgressTick) ==>
              TableAgrees(dedupe, log + [x], now)
  {
    hide KeyOf;
    var key := KeyOf(x.arrival.event);
    var grown := log + [x];
    if x.verdict == Dispatched && x.arrival.event.kind != ProgressTick {
      var table := dedupe[key := now];
      forall k | k in table
        ensures exists i | 0 <= i < |grown| :: LetThrough(grown[i], k) && grown[i].arrival.now == table[k]
      {
        if k == key {
          assert LetThrough(grown[|log|], k);
        } else {
          var i :| 0 <= i < |log| && LetThrough(log[i], k) && log[i].arrival.now == dedupe[k];
          assert grown[i] == log[i];
        }
      }
    } else {
      forall k | k in dedupe
        ensures exists i | 0 <= i < |grown| :: LetThrough(grown[i], k) && grown[i].arrival.now == dedupe[k]
      {
        var i :| 0 <= i < |log| && LetThrough(log[i], k) && log[i].arrival.now == dedupe[k];
        assert grown[i] == log[i];
      }
    }
  }

  lemma FingerprintsStep(fired: Fired, log: seq<Entry>, x: Entry)
    requires FingerprintsAgree(fired, log)
    ensures FingerprintRepeats(fired, x.arrival.event) <==>
            && Fingerprinted(x.arrival.event)
            && LastFingerprint(log, x.arrival.event) == Some(JobFingerprint(x.arrival.event.snapshot))
    ensures FingerprintRepeats(fired, x.arrival.event) ==> FingerprintsAgree(fired, log + [x])
    ensures FingerprintsAgree(RecordFingerprint(fired, x.arrival.event), log + [x])
  {
    hide JobFingerprint;
    var e := x.arrival.event;
    assert LastFingerprint(log, e) == if e.kind in FiredFor(fired, e.printer)
      then Some(FiredFor(fired, e.printer)[e.kind]) else None;
    forall d: Event
      ensures LastFingerprint(log + [x], d)
           == if SameTransition(e, d) then Some(JobFingerprint(e.snapshot)) else LastFingerprint(log, d)
    {
      assert (log + [x])[..|log|] == log;
    }
    if FingerprintRepeats(fired, e) {
      assert forall d | SameTransition(e, d) :: d.printer == e.printer && d.kind == e.kind;
    }
  }

  lemma TicksStep(lastProgress: map<string, real>, log: seq<Entry>, x: Entry)
    requires TicksAgree(lastProgress, log)
    ensures var printer, later := x.arrival.event.printer, x.arrival.later;
            && (TooSoon(lastProgress, printer, later) <==>
                  later - LastTick(log, printer).GetOr(0.0) < PROGRESS_THROTTLE_SECONDS)
            && TicksAgree(if TickLetThrough(x, printer) then lastProgress[printer := later] else lastProgress,
                          log + [x])
  {
    assert (log + [x])[..|log|] == log;
  }

  // The tables a hub keeps, against the full log of the arrivals so far.
  ghost predicate Agrees(h: Hub, log: seq<Entry>, clock: real) {
    && FingerprintsAgree(h.lastFired, log)
    && TicksAgree(h.lastProgress, log)
    && TableAgrees(h.dedupe, log, clock)
    && forall i | 0 <= i < |log| :: log[i].arrival.now <= clock
  }

  lemma HandleAgrees(h: Hub, log: seq<Entry>, clock: real, a: Arrival)
    requires Agrees(h, log, clock)
    requires clock <= a.now <= a.later
    ensures var (h', verdict) := Handle(h, a.event, a.now, a.later);
            verdict == Judge(log, a) && Agrees(h', log + [Entry(a, verdict)], a.now)
  {
    hide FingerprintsAgree, TicksAgree, TableAgrees, FingerprintRepeats, RecordFingerprint, LastFingerprint, LastTick,
         RecentlyLetThrough, JobFingerprint, Fingerprinted, KeyOf, TooSoon, Purged;
    var e := a.event;
    var (h', verdict) := Handle(h, e, a.now, a.later);
    var x := Entry(a, verdict);
    FingerprintsStep(h.lastFired, log, x);
    TicksStep(h.lastProgress, log, x);
    TableDecides(h.dedupe, log, clock, a.now, KeyOf(e));
    if FingerprintRepeats(h.lastFired, e) {
      TableKept(h.dedupe, log, clock, a.now);
      TableGrows(h.dedupe, log, x, a.now);
      OnlyTransitions(e);
    } else {
      TableGrows(Purged(h.dedupe, a.now), log, x, a.now);
    }
  }

  lemma OnlyTransitions(e: Event)
    ensures Fingerprinted(e) ==> e.kind != ProgressTick
  {}

  lemma TableKept(dedupe: map<DedupeKey, real>, log: seq<Entry>, clock: real, now: real)
    requires TableAgrees(dedupe, log, clock) && clock <= now
    ensures TableAgrees(dedupe, log, now)
  {
    hide KeyOf;
  }

  lemma {:induction false} HandleAllAgrees(arrivals: seq<Arrival>)
    requires Monotone(arrivals)
    ensures HandleAll(arrivals).1 == JudgeAll(arrivals)
    ensures arrivals != [] ==> Agrees(HandleAll(arrivals).0, JudgeAll(arrivals), arrivals[|arrivals| - 1].now)
  {
    hide Handle, Judge, Agrees;
    if arrivals != [] {
      var earlier, a := arrivals[..|arrivals| - 1], arrivals[|arrivals| - 1];
      HandleAllAgrees(earlier);
      var (h, log) := HandleAll(earlier);
      if earlier == [] {
        EmptyAgrees(a.now);
        HandleAgrees(h, log, a.now, a);
      } else {
        HandleAgrees(h, log, earlier[|earlier| - 1].now, a);
      }
    }
  }

  lemma EmptyAgrees(clock: real)
    ensures Agrees(EmptyHub(), [], clock)
  {}

  /**
   * The three self-purging tables decide every event as a search of the full log would, as long as
   * the clock does not run backwards.
   */
  lemma {:induction false} TablesEqualLogSearch(arrivals: seq<Arrival>, i: nat)
    requires Monotone(arrivals) && i < |arrivals|
    ensures var log := HandleAll(arrivals).1;
            && |log| == |arrivals| && log[i].arrival == arrivals[i]
            && log[i].verdict == Judge(log[..i], arrivals[i])
  {
    HandleAllAgrees(arrivals);
    JudgedAt(arrivals, i);
  }

  lemma {:induction false} JudgedAt(arrivals: seq<Arrival>, i: nat)
    requires i < |arrivals|
    ensures var log := JudgeAll(arrivals);
            log[i] == Entry(arrivals[i], Judge(log[..i], arrivals[i]))
  {
    hide Judge;
    var log, earlier := JudgeAll(arrivals), JudgeAll(arrivals[..|arrivals| - 1]);
    if i < |arrivals| - 1 {
      JudgedAt(arrivals[..|arrivals| - 1], i);
      assert log[..i] == earlier[..i];
    } else {
      assert log[..i] == earlier;
    }
  }

  // ---------------------------------------------------------------------
  // What a whole run lets through

  /** Two notifications with the same key are more than thirty seconds apart. */
  lemma {:induction false} SameKeyApart(arrivals: seq<Arrival>, i: nat, j: nat, key: DedupeKey)
    requires Monotone(arrivals) && i < j < |arrivals|
    requires var log := HandleAll(arrivals).1;
             |log| == |arrivals| && LetThrough(log[i], key) && LetThrough(log[j], key)
    ensures arrivals[j].now - arrivals[i].now > DEDUPE_SECONDS
  {
    hide KeyOf;
    TablesEqualLogSearch(arrivals, i);
    TablesEqualLogSearch(arrivals, j);
    var log := HandleAll(arrivals).1;
    assert log[..j][i] == log[i];
  }

  lemma {:induction false} LastTickIsLater(log: seq<Entry>, i: nat, printer: string)
    requires i < |log| && TickLetThrough(log[i], printer)
    requires forall m, n | 0 <= m <= n < |log| :: log[m].arrival.later <= log[n].arrival.later
    ensures LastTick(log, printer).Some? && LastTick(log, printer).value >= log[i].arrival.later
  {
    if !TickLetThrough(log[|log| - 1], printer) {
      LastTickIsLater(log[..|log| - 1], i, printer);
    }
  }

  lemma LaterGrows(arrivals: seq<Arrival>, i: nat, j: nat)
    requires Monotone(arrivals) && i <= j < |arrivals|
    ensures arrivals[i].later <= arrivals[j].later
  {}

  /** Two progress updates of one printer are at least ten seconds apart. */
  lemma {:induction false} TicksApart(arrivals: seq<Arrival>, i: nat, j: nat, printer: string)
    requires Monotone(arrivals) && i < j < |arrivals|
    requires var log := HandleAll(arrivals).1;
             |log| == |arrivals| && TickLetThrough(log[i], printer) && TickLetThrough(log[j], printer)
    ensures arrivals[j].later - arrivals[i].later >= PROGRESS_THROTTLE_SECONDS
  {
    hide RecentlyLetThrough, LastFingerprint, LastTick;
    HandleAllAgrees(arrivals);
    var log := HandleAll(arrivals).1;
    var before := log[..j];
    TablesEqualLogSearch(arrivals, j);
    forall m, n | 0 <= m <= n < |before| ensures before[m].arrival.later <= before[n].arrival.later {
      JudgedAt(arrivals, m);
      JudgedAt(arrivals, n);
      LaterGrows(arrivals, m, n);
    }
    assert before[i] == log[i];
    JudgedAt(arrivals, i);
    LastTickIsLater(before, i, printer);
  }

  lemma {:induction false} NoTickYet(log: seq<Entry>, printer: string)
    requires forall m | 0 <= m < |log| :: !TickLetThrough(log[m], printer)
    ensures LastTick(log, printer) == None
  {
    if log != [] {
      NoTickYet(log[..|log| - 1], printer);
    }
  }

  /**
   * As long as no tick of a printer has been sent, the next one is sent if and only if the monotonic
   * clock itself has reached the throttle interval.
   */
  lemma {:induction false} FirstTickNeedsTheClock(arrivals: seq<Arrival>, j: nat, printer: string)
    requires Monotone(arrivals) && j < |arrivals|
    requires arrivals[j].event.kind == ProgressTick && arrivals[j].event.printer == printer
    requires |HandleAll(arrivals).1| == |arrivals|
    requires forall m | 0 <= m < j && arrivals[m].event.kind == ProgressTick && arrivals[m].event.printer == printer ::
               HandleAll(arrivals).1[m].verdict != Dispatched
    ensures HandleAll(arrivals).1[j].verdict == Dispatched <==> arrivals[j].later >= PROGRESS_THROTTLE_SECONDS
  {
    hide JobFingerprint, RecentlyLetThrough, LastTick, LastFingerprint;
    HandleAllAgrees(arrivals);
    var log := JudgeAll(arrivals);
    JudgedAt(arrivals, j);
    forall m | 0 <= m < j ensures !TickLetThrough(log[..j][m], printer) {
      JudgedAt(arrivals, m);
    }
    NoTickYet(log[..j], printer);
  }

  /** A printer first heard of five seconds after boot: its first tick is dropped. */
  lemma {:induction false} EarlyFirstTick(e: Event)
    requires e.kind == ProgressTick
    ensures HandleAll([Arrival(e, 5.0, 5.0)]).1 == [Entry(Arrival(e, 5.0, 5.0), Throttled)]
  {
    hide JobFingerprint;
    var arrivals := [Arrival(e, 5.0, 5.0)];
    assert arrivals[..0] == [];
    TablesEqualLogSearch(arrivals, 0);
  }

  lemma {:induction false} LastFingerprintIs(log: seq<Entry>, i: nat, e: Event)
    requires i < |log| && SameTransition(log[i].arrival.event, e)
    requires forall m | i < m < |log| :: !SameTransition(log[m].arrival.event, e)
    ensures LastFingerprint(log, e) == Some(JobFingerprint(log[i].arrival.event.snapshot))
  {
    hide JobFingerprint, SameTransition;
    if i < |log| - 1 {
      LastFingerprintIs(log[..|log| - 1], i, e);
    }
  }

  /**
   * A transition right after one of the same type on the same printer passes exactly when it belongs to another
   * print.
   */
  lemma {:induction false} AdjacentTransitions(arrivals: seq<Arrival>, i: nat, j: nat)
    requires Monotone(arrivals) && i < j < |arrivals|
    requires Fingerprinted(arrivals[j].event) && SameTransition(arrivals[i].event, arrivals[j].event)
    requires forall m | i < m < j :: !SameTransition(arrivals[m].event, arrivals[j].event)
    ensures |HandleAll(arrivals).1| == |arrivals|
    ensures HandleAll(arrivals).1[j].verdict != FingerprintDuplicate
       <==> JobFingerprint(arrivals[i].event.snapshot) != JobFingerprint(arrivals[j].event.snapshot)
  {
    hide JobFingerprint, Fingerprinted, SameTransition, RecentlyLetThrough, LastTick, LastFingerprint;
    HandleAllAgrees(arrivals);
    TablesEqualLogSearch(arrivals, j);
    var before := HandleAll(arrivals).1[..j];
    forall m | 0 <= m < j ensures before[m].arrival == arrivals[m] {
      JudgedAt(arrivals, m);
    }
    LastFingerprintIs(before, i, arrivals[j].event);
  }

  // Every such transition in the run reports the same print.
  predicate SamePrint(arrivals: seq<Arrival>, e: Event) {
    forall m | 0 <= m < |arrivals| && SameTransition(arrivals[m].event, e) ::
      JobFingerprint(arrivals[m].event.snapshot) == JobFingerprint(e.snapshot)
  }

  lemma {:induction false} FingerprintOfSamePrint(log: seq<Entry>, i: nat, e: Event)
    requires i < |log| && SameTransition(log[i].arrival.event, e)
    requires forall m | 0 <= m < |log| && SameTransition(log[m].arrival.event, e) ::
               JobFingerprint(log[m].arrival.event.snapshot) == JobFingerprint(e.snapshot)
    ensures LastFingerprint(log, e) == Some(JobFingerprint(e.snapshot))
  {
    hide JobFingerprint, SameTransition;
    if !SameTransition(log[|log| - 1].arrival.event, e) {
      FingerprintOfSamePrint(log[..|log| - 1], i, e);
    }
  }

  /** However often reconnecting rediscovers one print's transition, it is announced at most once. */
  lemma {:induction false} RediscoveryIsSilent(arrivals: seq<Arrival>, i: nat, j: nat)
    requires Monotone(arrivals) && i < j < |arrivals|
    requires Fingerprinted(arrivals[j].event) && SameTransition(arrivals[i].event, arrivals[j].event)
    requires SamePrint(arrivals, arrivals[j].event)
    ensures |HandleAll(arrivals).1| == |arrivals| && HandleAll(arrivals).1[j].verdict == FingerprintDuplicate
  {
    hide JobFingerprint, Fingerprinted, SameTransition, RecentlyLetThrough, LastTick, LastFingerprint;
    HandleAllAgrees(arrivals);
    TablesEqualLogSearch(arrivals, j);
    var before := HandleAll(arrivals).1[..j];
    forall m | 0 <= m < j ensures before[m].arrival == arrivals[m] {
      JudgedAt(arrivals, m);
    }
    FingerprintOfSamePrint(before, i, arrivals[j].event);
  }

  // ---------------------------------------------------------------------
  // What is announced, as opposed to what passes the fingerprint filter

  lemma {:induction false} FingerprintOrigin(arrivals: seq<Arrival>, i: nat, j: nat, e: Event) returns (p: nat)
    requires i < j <= |arrivals|
    requires SameTransition(arrivals[i].event, e) && JudgeAll(arrivals)[i].verdict != FingerprintDuplicate
    ensures i <= p < j && SameTransition(arrivals[p].event, e)
    ensures JudgeAll(arrivals)[p].verdict != FingerprintDuplicate
    ensures LastFingerprint(JudgeAll(arrivals)[..j], e) == Some(JobFingerprint(arrivals[p].event.snapshot))
    decreases j
  {
    hide JobFingerprint, RecentlyLetThrough, LastTick;
    var log := JudgeAll(arrivals);
    JudgedAt(arrivals, j - 1);
    assert log[..j][..j - 1] == log[..j - 1];
    var x := arrivals[j - 1].event;
    if SameTransition(x, e) && (j - 1 == i || log[j - 1].verdict != FingerprintDuplicate) {
      p := j - 1;
    } else {
      p := FingerprintOrigin(arrivals, i, j - 1, e);
      if SameTransition(x, e) {
        SameLastFingerprint(log[..j - 1], x, e);
      }
    }
  }

  lemma {:induction false} SameLastFingerprint(log: seq<Entry>, x: Event, e: Event)
    requires x.printer == e.printer && x.kind == e.kind
    ensures LastFingerprint(log, x) == LastFingerprint(log, e)
  {
    hide JobFingerprint;
    if log != [] {
      SameLastFingerprint(log[..|log| - 1], x, e);
    }
  }

  // Every transition of e's type on its printer strictly between i and j was rejected as a repetition.
  predicate OnlyRepeatsBetween(log: seq<Entry>, i: nat, j: nat, e: Event)
    requires j <= |log|
  {
    forall m | i < m < j && SameTransition(log[m].arrival.event, e) :: log[m].verdict == FingerprintDuplicate
  }

  /**
   * However many rediscoveries lie between them: after a transition that passed the fingerprint filter,
   * the next one of its type and printer to pass is the next one of another print, and only such a one.
   */
  lemma {:induction false} SuccessiveTransitions(arrivals: seq<Arrival>, i: nat, j: nat)
    requires Monotone(arrivals) && i < j < |arrivals|
    requires Fingerprinted(arrivals[j].event) && SameTransition(arrivals[i].event, arrivals[j].event)
    requires var log := HandleAll(arrivals).1;
             && |log| == |arrivals| && log[i].verdict != FingerprintDuplicate
             && OnlyRepeatsBetween(log, i, j, arrivals[j].event)
    ensures HandleAll(arrivals).1[j].verdict != FingerprintDuplicate
       <==> JobFingerprint(arrivals[i].event.snapshot) != JobFingerprint(arrivals[j].event.snapshot)
    ensures arrivals[i].event.snapshot.job.Some? && arrivals[j].event.snapshot.job.Some?
    ensures HandleAll(arrivals).1[j].verdict != FingerprintDuplicate
       <==> !SameRun(arrivals[i].event.snapshot.job.value, arrivals[j].event.snapshot.job.value)
  {
    FingerprintsTellRunsApart(arrivals[i].event.snapshot, arrivals[j].event.snapshot);
    FingerprintsTellRunsApart(arrivals[j].event.snapshot, arrivals[i].event.snapshot);
    hide JobFingerprint, RecentlyLetThrough, LastTick, LastFingerprint;
    HandleAllAgrees(arrivals);
    var p := FingerprintOrigin(arrivals, i, j, arrivals[j].event);
    JudgedAt(arrivals, p);
    JudgedAt(arrivals, j);
    assert p == i;
  }

  // Transitions are detected without an HMS code.
  predicate CodelessTransitions(arrivals: seq<Arrival>) {
    forall m | 0 <= m < |arrivals| && IsTransition(arrivals[m].event.kind) :: arrivals[m].event.hmsCode == ""
  }

  // Two transitions of one type and printer share a key exactly when they share a print.
  lemma {:induction false} TransitionKeys(x: Event, e: Event)
    requires Fingerprinted(e) && e.hmsCode == "" && (IsTransition(x.kind) ==> x.hmsCode == "")
    ensures KeyOf(x) == KeyOf(e) <==>
              SameTransition(x, e) && JobFingerprint(x.snapshot) == JobFingerprint(e.snapshot)
  {
    hide JobFingerprint;
  }

  /**
   * When exactly the same print is announced twice in a row. Print i was announced, nothing of its type
   * was since, k is the latest such transition before j, and j belongs to print i again: j is announced
   * if and only if k belongs to another print and thirty seconds have passed since i.
   */
  lemma {:induction false} RepeatedAnnouncement(arrivals: seq<Arrival>, i: nat, k: nat, j: nat)
    requires Monotone(arrivals) && CodelessTransitions(arrivals) && i <= k < j < |arrivals|
    requires Fingerprinted(arrivals[j].event) && SameTransition(arrivals[i].event, arrivals[j].event)
    requires SameTransition(arrivals[k].event, arrivals[j].event)
    requires forall m | k < m < j :: !SameTransition(arrivals[m].event, arrivals[j].event)
    requires var log := HandleAll(arrivals).1;
             && |log| == |arrivals| && log[i].verdict == Dispatched
             && forall m | i < m < j && SameTransition(arrivals[m].event, arrivals[j].event) ::
                 log[m].verdict != Dispatched
    requires JobFingerprint(arrivals[i].event.snapshot) == JobFingerprint(arrivals[j].event.snapshot)
    ensures HandleAll(arrivals).1[j].verdict == Dispatched <==>
              && JobFingerprint(arrivals[k].event.snapshot) != JobFingerprint(arrivals[j].event.snapshot)
              && arrivals[j].now - arrivals[i].now > DEDUPE_SECONDS
  {
    hide JobFingerprint, Fingerprinted, LastTick, LastFingerprint, RecentlyLetThrough, KeyOf, SameTransition,
      IsTransition;
    HandleAllAgrees(arrivals);
    var log, e := JudgeAll(arrivals), arrivals[j].event;
    JudgedAt(arrivals, j);
    forall m | 0 <= m < j ensures log[..j][m].arrival == arrivals[m] {
      JudgedAt(arrivals, m);
    }
    LastFingerprintIs(log[..j], k, e);
    OnlyTransitions(e);
    SinceAnnounced(arrivals, i, j);
  }

  // Whether the thirty-second filter still remembers the announcement of i.
  lemma {:induction false} SinceAnnounced(arrivals: seq<Arrival>, i: nat, j: nat)
    requires Monotone(arrivals) && CodelessTransitions(arrivals) && i < j < |arrivals|
    requires Fingerprinted(arrivals[j].event) && SameTransition(arrivals[i].event, arrivals[j].event)
    requires JobFingerprint(arrivals[i].event.snapshot) == JobFingerprint(arrivals[j].event.snapshot)
    requires var log := JudgeAll(arrivals);
             && log[i].verdict == Dispatched
             && forall m | i < m < j && SameTransition(arrivals[m].event, arrivals[j].event) ::
                 log[m].verdict != Dispatched
    ensures RecentlyLetThrough(JudgeAll(arrivals)[..j], KeyOf(arrivals[j].event), arrivals[j].now) <==>
              arrivals[j].now - arrivals[i].now <= DEDUPE_SECONDS
  {
    hide JobFingerprint, KeyOf, SameTransition, LastTick, LastFingerprint;
    var e, before, key := arrivals[j].event, JudgeAll(arrivals)[..j], KeyOf(arrivals[j].event);
    forall m | 0 <= m < j
      ensures before[m].arrival == arrivals[m]
      ensures KeyOf(arrivals[m].event) == key <==>
                && SameTransition(arrivals[m].event, e)
                && JobFingerprint(arrivals[m].event.snapshot) == JobFingerprint(e.snapshot)
    {
      JudgedAt(arrivals, m);
      TransitionKeys(arrivals[m].event, e);
    }
    SameKind(arrivals[i].event, e);
    OnlyTransitions(e);
    assert LetThrough(before[i], key);
    if arrivals[j].now - arrivals[i].now <= DEDUPE_SECONDS {
      Recently(before, i, key, arrivals[j].now);
    } else {
      forall m | 0 <= m < |before| && LetThrough(before[m], key)
        ensures arrivals[j].now - before[m].arrival.now > DEDUPE_SECONDS
      {
        assert m <= i;
        assert arrivals[m].now <= arrivals[i].now;
      }
      NotRecently(before, key, arrivals[j].now);
    }
  }

  lemma SameKind(x: Event, e: Event)
    requires SameTransition(x, e)
    ensures x.kind == e.kind && x.printer == e.printer
  {}

  /**
   * What came in between: another print's transition, dropped by the thirty-second filter after its
   * fingerprint had been recorded.
   */
  lemma {:induction false} InterveningPrintWasDropped(arrivals: seq<Arrival>, i: nat, j: nat) returns (p: nat)
    requires Monotone(arrivals) && i < j < |arrivals|
    requires Fingerprinted(arrivals[j].event) && SameTransition(arrivals[i].event, arrivals[j].event)
    requires var log := HandleAll(arrivals).1;
             && |log| == |arrivals| && log[i].verdict == log[j].verdict == Dispatched
             && forall m | i < m < j && SameTransition(arrivals[m].event, arrivals[j].event) ::
                 log[m].verdict != Dispatched
    requires JobFingerprint(arrivals[i].event.snapshot) == JobFingerprint(arrivals[j].event.snapshot)
    ensures i < p < j && SameTransition(arrivals[p].event, arrivals[j].event)
    ensures HandleAll(arrivals).1[p].verdict == Deduped
    ensures JobFingerprint(arrivals[p].event.snapshot) != JobFingerprint(arrivals[j].event.snapshot)
  {
    hide JobFingerprint, RecentlyLetThrough, LastTick, LastFingerprint;
    HandleAllAgrees(arrivals);
    p := FingerprintOrigin(arrivals, i, j, arrivals[j].event);
    JudgedAt(arrivals, j);
    JudgedAt(arrivals, p);
  }

  /** And it does happen: prints a and b finish, a's finish is seen again at ten seconds, b's at forty. */
  lemma {:induction false} AnnouncedTwiceInARow(a: Event, b: Event)
    requires Fingerprinted(a) && SameTransition(b, a) && a.hmsCode == b.hmsCode == ""
    requires JobFingerprint(a.snapshot) != JobFingerprint(b.snapshot)
    ensures var arrivals := [Arrival(a, 0.0, 0.0), Arrival(b, 5.0, 5.0), Arrival(a, 10.0, 10.0),
                             Arrival(b, 40.0, 40.0)];
            && Monotone(arrivals)
            && |HandleAll(arrivals).1| == 4
            && HandleAll(arrivals).1[1].verdict == Dispatched
            && HandleAll(arrivals).1[2].verdict == Deduped
            && HandleAll(arrivals).1[3].verdict == Dispatched
  {
    hide JobFingerprint, Fingerprinted, LastFingerprint, RecentlyLetThrough, LastTick, KeyOf, Judge, HandleAll;
    var arrivals := [Arrival(a, 0.0, 0.0), Arrival(b, 5.0, 5.0), Arrival(a, 10.0, 10.0), Arrival(b, 40.0, 40.0)];
    HandleAllAgrees(arrivals);
    OnlyTransitions(a);
    KeysDiffer(a, b);
    var log := JudgeAll(arrivals);
    JudgedAt(arrivals, 0);
    EmptyLog(log[..0], a, KeyOf(a), 0.0);
    JudgedOtherPrint(log[..0], arrivals[0]);
    JudgedAt(arrivals, 1);
    LastFingerprintIs(log[..1], 0, b);
    NotRecently(log[..1], KeyOf(b), 5.0);
    JudgedOtherPrint(log[..1], arrivals[1]);
    JudgedAt(arrivals, 2);
    LastFingerprintIs(log[..2], 1, a);
    assert log[..2][0] == log[0];
    Recently(log[..2], 0, KeyOf(a), 10.0);
    JudgedOtherPrint(log[..2], arrivals[2]);
    JudgedAt(arrivals, 3);
    LastFingerprintIs(log[..3], 2, b);
    NotRecently(log[..3], KeyOf(b), 40.0);
    JudgedOtherPrint(log[..3], arrivals[3]);
  }

  // A transition of another print than the last is decided by the thirty seconds alone.
  lemma JudgedOtherPrint(log: seq<Entry>, a: Arrival)
    requires Fingerprinted(a.event) && LastFingerprint(log, a.event) != Some(JobFingerprint(a.event.snapshot))
    ensures Judge(log, a) == if RecentlyLetThrough(log, KeyOf(a.event), a.now) then Deduped else Dispatched
  {
    OnlyTransitions(a.event);
  }

  lemma KeysDiffer(a: Event, b: Event)
    requires SameTransition(b, a) && a.hmsCode == b.hmsCode == ""
    requires JobFingerprint(a.snapshot) != JobFingerprint(b.snapshot)
    ensures Fingerprinted(b) && KeyOf(a) != KeyOf(b)
  {
    hide JobFingerprint;
  }

  lemma EmptyLog(log: seq<Entry>, e: Event, key: DedupeKey, now: real)
    requires log == []
    ensures LastFingerprint(log, e) == None && !RecentlyLetThrough(log, key, now)
  {}

  lemma Recently(log: seq<Entry>, i: nat, key: DedupeKey, now: real)
    requires i < |log| && LetThrough(log[i], key) && now - log[i].arrival.now <= DEDUPE_SECONDS
    ensures RecentlyLetThrough(log, key, now)
  {}

  lemma NotRecently(log: seq<Entry>, key: DedupeKey, now: real)
    requires forall i | 0 <= i < |log| && LetThrough(log[i], key) :: now - log[i].arrival.now > DEDUPE_SECONDS
    ensures !RecentlyLetThrough(log, key, now)
  {}

  // ---------------------------------------------------------------------

  /** The hub: detects events per printer, queues them, and filters them as they are handled. */
  class NotificationHub {
    var queue: seq<Event>
    var dedupe: map<DedupeKey, real>
    var lastProgress: map<string, real>
    var lastFiredFingerprint: Fired
    var seenPrinters: set<string>

    function State(): Hub
      reads this
    {
      Hub(dedupe, lastProgress, lastFiredFingerprint)
    }

    constructor ()
      ensures State() == EmptyHub() && queue == [] && seenPrinters == {}
    {
      queue, dedupe, lastProgress, lastFiredFingerprint, seenPrinters := [], map[], map[], map[], {};
    }

    // The first status of a printer after start-up is never news.
    method OnStatusChange(prev: PrinterStatus, next: PrinterStatus)
      modifies this`queue, this`seenPrinters
      ensures seenPrinters == old(seenPrinters) + {next.id}
      ensures queue == old(queue) + if next.id in old(seenPrinters) then DetectEvents(prev, next) else []
    {
      var firstTime := next.id !in seenPrinters;
      seenPrinters := seenPrinters + {next.id};
      if firstTime {
        return;
      }
      var events := DetectEventList(prev, next);
      queue := queue + events;
    }

    method IsFingerprintDuplicate(e: Event) returns (duplicate: bool)
      modifies this`lastFiredFingerprint
      ensures duplicate == FingerprintRepeats(old(lastFiredFingerprint), e)
      ensures lastFiredFingerprint ==
              if duplicate then old(lastFiredFingerprint) else RecordFingerprint(old(lastFiredFingerprint), e)
    {
      if !IsTransition(e.kind) {
        return false;
      }
      var fingerprint := JobFingerprint(e.snapshot);
      if fingerprint == "" {
        return false;
      }
      var perPrinter := FiredFor(lastFiredFingerprint, e.printer);
      if e.kind in perPrinter && perPrinter[e.kind] == fingerprint {
        return true;
      }
      lastFiredFingerprint := lastFiredFingerprint[e.printer := perPrinter[e.kind := fingerprint]];
      return false;
    }

    method Purge(now: real)
      modifies this`dedupe
      ensures dedupe == Purged(old(dedupe), now)
    {
      var expired := set k | k in dedupe && now - dedupe[k] > DEDUPE_SECONDS;
      while expired != {}
        invariant expired <= dedupe.Keys <= old(dedupe).Keys
        invariant forall k | k in dedupe :: dedupe[k] == old(dedupe)[k]
        invariant forall k | k in expired :: now - dedupe[k] > DEDUPE_SECONDS
        invariant forall k | k in old(dedupe) && !(now - old(dedupe)[k] > DEDUPE_SECONDS) :: k in dedupe
        invariant forall k | k in dedupe && now - dedupe[k] > DEDUPE_SECONDS :: k in expired
      {
        var k :| k in expired;
        dedupe := dedupe - {k};
        expired := expired - {k};
      }
      assert dedupe.Keys == Purged(old(dedupe), now).Keys;
    }

    method IsDeduped(e: Event, now: real) returns (duplicate: bool)
      modifies this`dedupe
      ensures duplicate <==> e.kind != ProgressTick && KeyOf(e) in Purged(old(dedupe), now)
      ensures dedupe == if e.kind != ProgressTick && !duplicate then Purged(old(dedupe), now)[KeyOf(e) := now]
                        else Purged(old(dedupe), now)
    {
      Purge(now);
      if e.kind == ProgressTick {
        return false;
      }
      var key := KeyOf(e);
      if key in dedupe {
        return true;
      }
      dedupe := dedupe[key := now];
      return false;
    }

    method IsThrottled(e: Event, now: real) returns (throttled: bool)
      modifies this`lastProgress
      ensures throttled == TooSoon(old(lastProgress), e.printer, now)
      ensures lastProgress == if throttled then old(lastProgress) else old(lastProgress)[e.printer := now]
    {
      var last := if e.printer in lastProgress then lastProgress[e.printer] else 0.0;
      if now - last < PROGRESS_THROTTLE_SECONDS {
        return true;
      }
      lastProgress := lastProgress[e.printer := now];
      return false;
    }

    method HandleEvent(e: Event, now: real, later: real) returns (verdict: Verdict)
      modifies this`dedupe, this`lastProgress, this`lastFiredFingerprint
      ensures (State(), verdict) == Handle(old(State()), e, now, later)
    {
      hide FingerprintRepeats, RecordFingerprint, Purged, TooSoon, KeyOf;
      var repeated := IsFingerprintDuplicate(e);
      if repeated {
        return FingerprintDuplicate;
      }
      var deduped := IsDeduped(e, now);
      if deduped {
        return Deduped;
      }
      if e.kind == ProgressTick {
        var throttled := IsThrottled(e, later);
        if throttled {
          return Throttled;
        }
      }
      return Dispatched;
    }
  }

  method HmsEventList(prev: PrinterStatus, next: PrinterStatus) returns (events: seq<Event>)
    ensures events == HmsEvents(prev, next, next.hmsCodes)
  {
    events := [];
    for i := 0 to |next.hmsCodes|
      invariant events == HmsEvents(prev, next, next.hmsCodes[..i])
    {
      var code := next.hmsCodes[i];
      assert next.hmsCodes[..i + 1][..i] == next.hmsCodes[..i];
      if NewCode(prev, code) {
        events := events + [Event(HmsWarning, next.id, next, code.attr)];
      }
    }
    assert next.hmsCodes[..|next.hmsCodes|] == next.hmsCodes;
  }

  method DetectEventList(prev: PrinterStatus, next: PrinterStatus) returns (events: seq<Event>)
    ensures events == DetectEvents(prev, next)
  {
    hide Ticks, Active, HmsEvents;
    events := [];
    if prev.state != next.state {
      var kind := TransitionEvent(prev.state, next.state);
      if kind.Some? {
        events := events + [Event(kind.value, next.id, next, "")];
      }
    }
    assert events == TransitionEvents(prev, next);
    if prev.online && !next.online && Active(prev.state) {
      events := events + [Event(PrinterOfflineActive, next.id, next, "")];
    }
    assert events == TransitionEvents(prev, next) + OfflineEvents(prev, next);
    var warnings := HmsEventList(prev, next);
    events := events + warnings;
    if events == [] && prev.state == Printing && next.state == Printing && next.online && Ticks(prev, next) {
      events := [Event(ProgressTick, next.id, next, "")];
    }
  }
}
