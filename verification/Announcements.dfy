/**
 * Which events are announced, read off the events themselves: their printers, kinds, codes, jobs and times. Nothing
 * here speaks of fingerprints, keys or tables.
 */
module Announcements {
  import opened Prelude
  import opened Models
  import opened Notifications

  // Both events report the same change of state on one printer, each with a job.
  predicate SameChange(x: Event, e: Event) {
    && x.printer == e.printer && x.kind == e.kind
    && e.kind in {PrintStarted, PrintPaused, PrintResumed, PrintFinished, PrintCancelled, PrintFailed}
    && x.snapshot.job.Some? && e.snapshot.job.Some?
  }

  // Two snapshots of one print, or two without a job.
  predicate SamePrintOrNone(x: PrinterStatus, e: PrinterStatus) {
    if x.job.Some? && e.job.Some? then SameRun(x.job.value, e.job.value) else x.job.None? && e.job.None?
  }

  // One notification said again: a warning with its code, anything else with its print.
  predicate SameMessage(x: Event, e: Event) {
    && x.printer == e.printer && x.kind == e.kind
    && if e.kind == HmsWarning then x.hmsCode == e.hmsCode else SamePrintOrNone(x.snapshot, e.snapshot)
  }

  // Warnings carry a code, and nothing else does.
  predicate Coded(arrivals: seq<Arrival>) {
    forall i | 0 <= i < |arrivals| :: arrivals[i].event.kind == HmsWarning <==> arrivals[i].event.hmsCode != ""
  }

  lemma ChangesAre(x: Event, e: Event)
    ensures Fingerprinted(e) && SameTransition(x, e) <==> SameChange(x, e)
  {
    FingerprintsTellRunsApart(x.snapshot, x.snapshot);
    FingerprintsTellRunsApart(e.snapshot, e.snapshot);
    hide JobFingerprint;
  }

  lemma MessagesAre(x: Event, e: Event)
    requires x.kind == HmsWarning <==> x.hmsCode != ""
    requires e.kind == HmsWarning <==> e.hmsCode != ""
    ensures KeyOf(x) == KeyOf(e) <==> SameMessage(x, e)
  {
    FingerprintsTellRunsApart(x.snapshot, e.snapshot);
    FingerprintsTellRunsApart(e.snapshot, x.snapshot);
    hide JobFingerprint;
  }

  // Where the latest report of the same change is.
  lemma {:induction false} LatestChange(log: seq<Entry>, e: Event) returns (p: int)
    ensures -1 <= p < |log|
    ensures p >= 0 ==> SameChange(log[p].arrival.event, e)
    ensures forall m | p < m < |log| :: !SameChange(log[m].arrival.event, e)
    ensures Fingerprinted(e) ==>
              LastFingerprint(log, e) ==
              if p < 0 then None else Some(JobFingerprint(log[p].arrival.event.snapshot))
  {
    hide JobFingerprint, SameTransition, Fingerprinted, SameChange;
    if log == [] {
      p := -1;
    } else {
      ChangesAre(log[|log| - 1].arrival.event, e);
      if SameChange(log[|log| - 1].arrival.event, e) {
        p := |log| - 1;
      } else {
        p := LatestChange(log[..|log| - 1], e);
      }
    }
  }

  /**
   * A change of state is dropped as a rediscovery exactly when the latest report of the same change on that printer
   * was of the same print.
   */
  lemma {:induction false} RediscoveredIff(arrivals: seq<Arrival>, j: nat)
    requires Monotone(arrivals) && j < |arrivals|
    ensures |HandleAll(arrivals).1| == |arrivals|
    ensures HandleAll(arrivals).1[j].verdict == FingerprintDuplicate <==>
            exists p | 0 <= p < j ::
              && SameChange(arrivals[p].event, arrivals[j].event)
              && SameRun(arrivals[p].event.snapshot.job.value, arrivals[j].event.snapshot.job.value)
              && forall m | p < m < j :: !SameChange(arrivals[m].event, arrivals[j].event)
  {
    hide JobFingerprint, LastFingerprint, LastTick, RecentlyLetThrough, SameRun, Fingerprinted, SameTransition,
      SameChange, Monotone;
    TablesEqualLogSearch(arrivals, j);
    HandleAllAgrees(arrivals);
    var log, e := HandleAll(arrivals).1[..j], arrivals[j].event;
    forall m | 0 <= m < j ensures log[m].arrival == arrivals[m] {
      TablesEqualLogSearch(arrivals, m);
    }
    var p := LatestChange(log, e);
    if p >= 0 {
      SameChangeHasJobs(arrivals[p].event, e);
      FingerprintsTellRunsApart(arrivals[p].event.snapshot, e.snapshot);
      SameRunIs(arrivals[p].event.snapshot.job.value, e.snapshot.job.value);
    } else if Fingerprinted(e) {
      assert LastFingerprint(log, e) == None;
    }
    assert forall q | 0 <= q < j && SameChange(arrivals[q].event, e) :: q <= p;
  }

  lemma SameChangeHasJobs(x: Event, e: Event)
    requires SameChange(x, e)
    ensures Fingerprinted(e) && x.snapshot.job.Some? && e.snapshot.job.Some?
  {
    ChangesAre(x, e);
  }

  lemma SameRunIs(a: PrintJob, b: PrintJob)
    ensures SameRun(a, b) <==>
            if a.gcodeStartTime != "" || b.gcodeStartTime != "" then a.gcodeStartTime == b.gcodeStartTime
            else a.fileName == b.fileName && a.totalLayers == b.totalLayers
  {}

  /**
   * Any other event but a progress tick is announced exactly when the same message was not announced within the
   * last thirty seconds.
   */
  lemma {:induction false} AnnouncedIff(arrivals: seq<Arrival>, j: nat)
    requires Monotone(arrivals) && Coded(arrivals) && j < |arrivals|
    requires arrivals[j].event.kind != ProgressTick
    requires |HandleAll(arrivals).1| == |arrivals| && HandleAll(arrivals).1[j].verdict != FingerprintDuplicate
    ensures HandleAll(arrivals).1[j].verdict == Dispatched <==>
            forall i | 0 <= i < j && SameMessage(arrivals[i].event, arrivals[j].event) ::
              HandleAll(arrivals).1[i].verdict == Dispatched ==> arrivals[j].now - arrivals[i].now > 30.0
  {
    hide JobFingerprint, LastFingerprint, LastTick, Fingerprinted, KeyOf, SameMessage, Monotone;
    TablesEqualLogSearch(arrivals, j);
    var log, e := HandleAll(arrivals).1, arrivals[j].event;
    forall i | 0 <= i < j
      ensures log[..j][i] == log[i] && log[i].arrival == arrivals[i]
      ensures LetThrough(log[i], KeyOf(e)) <==>
              SameMessage(arrivals[i].event, e) && log[i].verdict == Dispatched
    {
      TablesEqualLogSearch(arrivals, i);
      MessagesAre(arrivals[i].event, e);
      SameMessageKind(arrivals[i].event, e);
    }
    if RecentlyLetThrough(log[..j], KeyOf(e), arrivals[j].now) {
      var i :| 0 <= i < j && LetThrough(log[..j][i], KeyOf(e)) && arrivals[j].now - log[..j][i].arrival.now <= 30.0;
      assert SameMessage(arrivals[i].event, e) && log[i].verdict == Dispatched;
    } else {
      forall i | 0 <= i < j && SameMessage(arrivals[i].event, e) && log[i].verdict == Dispatched
        ensures arrivals[j].now - arrivals[i].now > 30.0
      {
        assert LetThrough(log[..j][i], KeyOf(e));
      }
    }
  }

  lemma SameMessageKind(x: Event, e: Event)
    ensures SameMessage(x, e) ==> x.kind == e.kind
  {}

  /**
   * A progress tick is announced exactly when the clock reads at least ten seconds and every announced tick of that
   * printer lies at least ten seconds back.
   */
  lemma {:induction false} TickAnnouncedIff(arrivals: seq<Arrival>, j: nat)
    requires Monotone(arrivals) && j < |arrivals| && arrivals[j].event.kind == ProgressTick
    ensures |HandleAll(arrivals).1| == |arrivals|
    ensures HandleAll(arrivals).1[j].verdict == Dispatched <==>
            && arrivals[j].later >= 10.0
            && forall i | 0 <= i < j :: SentTick(arrivals, i, arrivals[j].event.printer) ==>
                 arrivals[j].later - arrivals[i].later >= 10.0
  {
    hide JobFingerprint, LastFingerprint, LastTick, RecentlyLetThrough, KeyOf, Monotone;
    HandleAllAgrees(arrivals);
    TablesEqualLogSearch(arrivals, j);
    var log, printer := HandleAll(arrivals).1, arrivals[j].event.printer;
    forall i | 0 <= i < j
      ensures log[..j][i] == log[i] && log[i].arrival == arrivals[i]
      ensures TickLetThrough(log[i], printer) <==> SentTick(arrivals, i, printer)
    {
      TablesEqualLogSearch(arrivals, i);
    }
    var p := LatestTick(log[..j], printer);
    if p >= 0 {
      TickAnnouncedIff(arrivals, p);
    }
    forall i | 0 <= i < j && SentTick(arrivals, i, printer) ensures i <= p && arrivals[i].later <= arrivals[p].later {
      assert TickLetThrough(log[..j][i], printer);
      LaterGrows(arrivals, i, p);
    }
  }

  predicate SentTick(arrivals: seq<Arrival>, i: nat, printer: string)
    requires i < |arrivals|
  {
    && |HandleAll(arrivals).1| == |arrivals| && HandleAll(arrivals).1[i].verdict == Dispatched
    && arrivals[i].event.kind == ProgressTick && arrivals[i].event.printer == printer
  }

  lemma {:induction false} LatestTick(log: seq<Entry>, printer: string) returns (p: int)
    ensures -1 <= p < |log|
    ensures p >= 0 ==> TickLetThrough(log[p], printer)
    ensures forall m | p < m < |log| :: !TickLetThrough(log[m], printer)
    ensures LastTick(log, printer) == if p < 0 then None else Some(log[p].arrival.later)
  {
    if log == [] {
      p := -1;
    } else if TickLetThrough(log[|log| - 1], printer) {
      p := |log| - 1;
    } else {
      p := LatestTick(log[..|log| - 1], printer);
    }
  }
}
