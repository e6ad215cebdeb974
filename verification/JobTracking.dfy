/** What the print broker guarantees over whole runs of submissions, reports, enrichments and credential changes. */
module JobTracking {
  import opened Prelude
  import opened Text
  import opened Reports
  import opened PrintTracking
  import DropOldest

  // ---------------------------------------------------------------------
  // The source registry

  ghost predicate AtMostOne<T(!new)>(s: set<T>) {
    forall x, y | x in s && y in s :: x == y
  }

  // While no key is active the registry can hold only the key the view shows, or an orphan of an earlier view.
  ghost predicate Registry(c: Core) {
    && (forall k | k in c.sources :: k != "" && c.sources[k].jobKey == k)
    && (c.pending.Some? ==> c.pending.value.jobKey != "")
    && (c.activeKey.Some? ==>
          && c.activeKey.value != ""
          && c.view.jobKey == c.activeKey
          && AtMostOne(c.sources.Keys - {c.activeKey.value}))
    && (c.activeKey.None? ==>
          && AtMostOne(c.sources.Keys)
          && (c.pending.Some? ==> c.sources.Keys <= {c.pending.value.jobKey})
          && (c.view.jobKey.Some? ==>
                && c.view.jobKey.value != ""
                && c.sources.Keys <= {c.view.jobKey.value}
                && (c.pending.Some? ==> c.view.jobKey == Some(c.pending.value.jobKey))))
  }

  // What holds of a core between the merging of an input and the rebuilding of the view.
  ghost predicate Mergeable(c: Core) {
    && (forall k | k in c.sources :: k != "" && c.sources[k].jobKey == k)
    && (c.pending.Some? ==> c.pending.value.jobKey != "")
    && (c.activeKey.Some? ==> c.activeKey.value != "" && AtMostOne(c.sources.Keys - {c.activeKey.value}))
    && (c.activeKey.None? ==>
          && AtMostOne(c.sources.Keys)
          && (c.pending.Some? ==> c.sources.Keys <= {c.pending.value.jobKey}))
  }

  lemma RebuildKeepsRegistry(c: Core, preferred: Option<string>)
    requires Mergeable(c)
    requires preferred.GetOr("") != "" ==> c.activeKey == preferred
    ensures Registry(Rebuild(c, preferred))
  {
    hide ViewOf, ReportedUrl, NameOf, Phase, MeaningfulIds, Joined, FromUrl, Adopted;
    var (derived, active) := if preferred.GetOr("") != "" then (preferred, c.activeKey) else DeriveKey(c);
    var (source, sources, pending) := Settle(c, derived);
    var view := ViewOf(c.raw, c.usageReferences, c.view, c.fileAvailable, derived, source);
    assert view.jobKey == derived by { ViewShowsKey(c, derived, source); }
    assert Rebuild(c, preferred) == c.(activeKey := active, sources := sources, pending := pending, view := view);
    SettledKeys(c, derived);
    assert active.Some? ==> derived == active && active.value != "";
    assert active.None? && c.pending.Some? ==> derived == Some(c.pending.value.jobKey);
    assert active.None? && c.pending.None? ==> derived.None?;
    if active.Some? {
      assert sources.Keys - {active.value} <= c.sources.Keys - {active.value};
      assert AtMostOne(c.sources.Keys - {active.value});
    }
  }

  lemma ViewShowsKey(c: Core, key: Option<string>, source: Option<PrintSource>)
    ensures ViewOf(c.raw, c.usageReferences, c.view, c.fileAvailable, key, source).jobKey == key
  {}

  lemma SettledKeys(c: Core, key: Option<string>)
    ensures Settle(c, key).1.Keys <= c.sources.Keys + {key.GetOr("")}
    ensures key.GetOr("") == "" ==> Settle(c, key).1 == c.sources
    ensures forall k | k in Settle(c, key).1 ::
              (k in c.sources && Settle(c, key).1[k] == c.sources[k]) || Settle(c, key).1[k].jobKey == k
    ensures Settle(c, key).2.None? || Settle(c, key).2 == c.pending
  {
    hide ReportedUrl, Phase;
  }

  lemma {:induction false} InputKeepsRegistry(c: Core, input: Input)
    requires Registry(c)
    ensures Registry(After(c, input))
  {
    hide Rebuild, Boundary, NameOf, Merge, GatewayKey, Numbers, PlateEntry, EnrichedSources;
    if Publishes(c, input) {
      match input
      case Submit(job) =>
        var source := GatewaySource(job);
        var raw := c.raw[SubtaskName := Str(job.filename)]
                        [Param := Str(PlateEntry(job.plateId))]
                        [AmsMapping := Numbers(job.amsMapping.GetOr([]))];
        GatewayKeyIsNotEmpty(job);
        RebuildKeepsRegistry(
          c.(raw := raw, sources := map[source.jobKey := source], usageReferences := map[],
             pending := Some(source), activeKey := Some(source.jobKey)),
          Some(source.jobKey));
      case Firmware(report) =>
        var base := if Boundary(c.raw, report.fields) then Reset(c, report.fields) else c;
        RebuildKeepsRegistry(base.(raw := Merge(base.raw, report.fields)), None);
      case Enrich(jobKey, usage, url) =>
        var sources := EnrichedSources(c, jobKey, usage, url);
        EnrichedKeys(c, jobKey, usage, url);
        if c.activeKey.Some? {
          assert sources.Keys - {jobKey} == c.sources.Keys - {jobKey};
        }
        RebuildKeepsRegistry(c.(usageReferences := map[jobKey := usage], sources := sources), None);
      case FileAccess(available) =>
        RebuildKeepsRegistry(c.(fileAvailable := available), None);
    }
  }

  lemma EnrichedKeys(c: Core, jobKey: string, usage: Report, url: Option<CloudUrl>)
    requires forall k | k in c.sources :: c.sources[k].jobKey == k
    ensures var sources := EnrichedSources(c, jobKey, usage, url);
            && c.sources.Keys <= sources.Keys <= c.sources.Keys + {jobKey}
            && forall k | k in sources :: sources[k].jobKey == k
  {}

  lemma GatewayKeyIsNotEmpty(job: Submission)
    ensures GatewayKey(job) != ""
  {}

  lemma {:induction false} RunKeepsRegistry(c: Core, inputs: seq<Input>)
    requires Registry(c)
    ensures Registry(AfterAll(c, inputs))
    decreases inputs
  {
    hide After;
    if inputs != [] {
      InputKeepsRegistry(c, inputs[0]);
      RunKeepsRegistry(After(c, inputs[0]), inputs[1..]);
    }
  }

  lemma {:induction false} AtMostOneElement<T(!new)>(s: set<T>)
    requires AtMostOne(s)
    ensures |s| <= 1
  {
    if s != {} {
      var x :| x in s;
      assert s == {x};
    }
  }

  /**
   * In every reachable state each source sits under its own job key, the registry holds at most
   * one entry besides the active job's and never more than two, and a source is handed out only
   * for the job being shown, and then it is that job's own.
   */
  lemma {:induction false} ReachableRegistry(fileAvailable: bool, inputs: seq<Input>, jobKey: string)
    ensures var c := AfterAll(Initial(fileAvailable), inputs);
            && (forall k | k in c.sources :: c.sources[k].jobKey == k)
            && |c.sources.Keys - if c.activeKey.Some? then {c.activeKey.value} else {}| <= 1
            && |c.sources| <= 2
            && (SourceFor(c, jobKey).Some? ==>
                  c.view.jobKey == Some(jobKey) && SourceFor(c, jobKey).value.jobKey == jobKey)
  {
    RunKeepsRegistry(Initial(fileAvailable), inputs);
    RegistryMeans(AfterAll(Initial(fileAvailable), inputs), jobKey);
  }

  lemma {:induction false} RegistryMeans(c: Core, jobKey: string)
    requires Registry(c)
    ensures (forall k | k in c.sources :: c.sources[k].jobKey == k)
    ensures |c.sources.Keys - if c.activeKey.Some? then {c.activeKey.value} else {}| <= 1
    ensures |c.sources| <= 2
    ensures SourceFor(c, jobKey).Some? ==>
              c.view.jobKey == Some(jobKey) && SourceFor(c, jobKey).value.jobKey == jobKey
  {
    var active := if c.activeKey.Some? then {c.activeKey.value} else {};
    assert c.activeKey.None? ==> c.sources.Keys - active == c.sources.Keys;
    AtMostOneElement(c.sources.Keys - active);
    assert c.sources.Keys <= active + (c.sources.Keys - active);
    SubsetSize(c.sources.Keys, active + (c.sources.Keys - active));
  }

  lemma {:induction false} SubsetSize<T>(a: set<T>, b: set<T>)
    requires a <= b
    ensures |a| <= |b|
  {
    assert b == a + (b - a);
  }

  // ---------------------------------------------------------------------
  // Job boundaries

  // The pending gateway job is the one a boundary report announces (or does not contradict).
  predicate Announces(c: Core, report: Report) {
    && c.pending.Some? && c.pending.value.filename != ""
    && (NameOf(report) == "" || NameOf(report) == c.pending.value.filename)
  }

  /**
   * At a boundary that announces no gateway job, nothing of the previous print survives: the
   * broker is in the state a new one would reach, holding only the submission still pending.
   */
  lemma {:induction false} BoundaryForgets(c: Core, report: Report)
    requires Boundary(c.raw, report)
    requires !Announces(c, report)
    ensures AfterReport(c, report) == AfterReport(Initial(c.fileAvailable).(pending := c.pending), report)
  {
    hide Rebuild, NameOf, Merge;
    var blank := Initial(c.fileAvailable).(pending := c.pending);
    assert Reset(c, report) == blank;
    NothingToSplit(report);
  }

  lemma NothingToSplit(report: Report)
    ensures !Boundary(map[], report)
  {
    hide NameIdentity, Upper;
    assert NameOf(map[]) == "";
    assert TextOf(Get(map[], GcodeState)) == "";
    assert Upper("") == "" by { UpperEmpty(); }
  }

  lemma UpperEmpty()
    ensures Upper("") == ""
  {}

  function Views(snapshots: seq<Snapshot>): seq<View> {
    seq(|snapshots|, i requires 0 <= i < |snapshots| => snapshots[i].view)
  }

  lemma {:induction false} SequenceIsIrrelevant(c: Core, n1: nat, n2: nat, inputs: seq<Input>)
    ensures Views(Published(c, n1, inputs)) == Views(Published(c, n2, inputs))
    decreases inputs
  {
    hide After, Publishes;
    if inputs != [] {
      var next := After(c, inputs[0]);
      if Publishes(c, inputs[0]) {
        SequenceIsIrrelevant(next, n1 + 1, n2 + 1, inputs[1..]);
        var a, b := Published(next, n1 + 1, inputs[1..]), Published(next, n2 + 1, inputs[1..]);
        assert Views([Snapshot(n1 + 1, next.view)] + a) == [next.view] + Views(a);
        assert Views([Snapshot(n2 + 1, next.view)] + b) == [next.view] + Views(b);
      } else {
        SequenceIsIrrelevant(next, n1, n2, inputs[1..]);
      }
    }
  }

  /**
   * Non-interference: two brokers with any two histories that meet the same boundary report, with
   * no submission pending and the same file access, publish the same views ever after.
   */
  lemma {:induction false} HistoriesConverge(c1: Core, n1: nat, c2: Core, n2: nat, report: Report, further: seq<Input>)
    requires Boundary(c1.raw, report) && Boundary(c2.raw, report)
    requires c1.pending.None? && c2.pending.None? && c1.fileAvailable == c2.fileAvailable
    ensures After(c1, Firmware(Obj(report))) == After(c2, Firmware(Obj(report)))
    ensures Views(Published(c1, n1, [Firmware(Obj(report))] + further))
         == Views(Published(c2, n2, [Firmware(Obj(report))] + further))
  {
    hide AfterReport, Boundary;
    BoundaryForgets(c1, report);
    BoundaryForgets(c2, report);
    var next := After(c1, Firmware(Obj(report)));
    SequenceIsIrrelevant(next, n1 + 1, n2 + 1, further);
    var a, b := Published(next, n1 + 1, further), Published(next, n2 + 1, further);
    assert ([Firmware(Obj(report))] + further)[1..] == further;
    assert Views([Snapshot(n1 + 1, next.view)] + a) == [next.view] + Views(a);
    assert Views([Snapshot(n2 + 1, next.view)] + b) == [next.view] + Views(b);
  }

  /** Published snapshots are numbered consecutively. */
  lemma {:induction false} ConsecutiveSequence(c: Core, sequence: nat, inputs: seq<Input>, i: nat)
    requires i < |Published(c, sequence, inputs)|
    ensures Published(c, sequence, inputs)[i].sequence == sequence + 1 + i
    decreases inputs
  {
    hide After, Publishes;
    var next := After(c, inputs[0]);
    if !Publishes(c, inputs[0]) {
      ConsecutiveSequence(next, sequence, inputs[1..], i);
    } else if i > 0 {
      ConsecutiveSequence(next, sequence + 1, inputs[1..], i - 1);
    }
  }

  // ---------------------------------------------------------------------
  // Stability of the job key

  predicate Quiet(c: Core, input: Input) {
    && (input.Submit? ==> !Publishes(c, input))
    && (input.Firmware? && input.report.Obj? ==> !Boundary(c.raw, input.report.fields))
  }

  predicate QuietRun(c: Core, inputs: seq<Input>)
    decreases inputs
  {
    inputs == [] || (Quiet(c, inputs[0]) && QuietRun(After(c, inputs[0]), inputs[1..]))
  }

  lemma QuietInputKeepsKey(c: Core, input: Input)
    requires Registry(c) && c.activeKey.Some?
    requires Quiet(c, input)
    ensures After(c, input).activeKey == c.activeKey == After(c, input).view.jobKey
  {
    hide Boundary, Merge, ViewOf, Settle, EnrichedSources, Numbers, GatewayKey, Registry;
    InputKeepsRegistry(c, input);
    RegistryShowsActive(c);
    RegistryShowsActive(After(c, input));
  }

  lemma RegistryShowsActive(c: Core)
    requires Registry(c)
    ensures c.activeKey.Some? ==> c.view.jobKey == c.activeKey
  {}

  /** Once a key is active, every snapshot carries it until the next boundary or gateway submission. */
  lemma {:induction false} ActiveKeyIsStable(c: Core, sequence: nat, inputs: seq<Input>, i: nat)
    requires Registry(c) && c.activeKey.Some?
    requires QuietRun(c, inputs)
    requires i < |Published(c, sequence, inputs)|
    ensures Published(c, sequence, inputs)[i].view.jobKey == c.activeKey
    decreases inputs
  {
    hide After, Publishes, Quiet, Registry;
    var next := After(c, inputs[0]);
    InputKeepsRegistry(c, inputs[0]);
    QuietInputKeepsKey(c, inputs[0]);
    if !Publishes(c, inputs[0]) {
      ActiveKeyIsStable(next, sequence, inputs[1..], i);
    } else if i > 0 {
      ActiveKeyIsStable(next, sequence + 1, inputs[1..], i - 1);
    }
  }

  /** A report that neither shows an active state nor starts a file is never a boundary. */
  lemma {:induction false} QuietReport(raw: Report, report: Report)
    requires !Starts(report)
    ensures !Boundary(raw, report)
  {
    hide NameChanged, IdentityChanged, StateOf;
  }

  // ---------------------------------------------------------------------
  // Accumulation within one job

  function AsInputs(reports: seq<Report>): seq<Input> {
    seq(|reports|, i requires 0 <= i < |reports| => Firmware(Obj(reports[i])))
  }

  // No report is a boundary with respect to what was accumulated before it.
  predicate OneJob(raw: Report, reports: seq<Report>) {
    reports == [] ||
    (OneJob(raw, reports[..|reports| - 1]) && !Boundary(Fold(raw, reports[..|reports| - 1]), reports[|reports| - 1]))
  }

  lemma {:induction false} AfterAllAppend(c: Core, inputs: seq<Input>, last: Input)
    ensures AfterAll(c, inputs + [last]) == After(AfterAll(c, inputs), last)
    decreases inputs
  {
    hide After;
    if inputs == [] {
      assert (inputs + [last])[1..] == [];
    } else {
      assert (inputs + [last])[1..] == inputs[1..] + [last];
      AfterAllAppend(After(c, inputs[0]), inputs[1..], last);
    }
  }

  lemma ReportWithinJob(c: Core, report: Report)
    requires !Boundary(c.raw, report)
    ensures var next := After(c, Firmware(Obj(report)));
            next.raw == Merge(c.raw, report) && next.view.layer == IntegerOf(Get(next.raw, LayerNum), 0)
  {
    hide Boundary, Merge, Settle, DeriveKey, StatusOf, Mapping, TrayShown, NameOf, TextOf, IntegerOf;
  }

  lemma {:induction false} ReportsAccumulate(c: Core, reports: seq<Report>)
    requires OneJob(c.raw, reports)
    ensures AfterAll(c, AsInputs(reports)).raw == Fold(c.raw, reports)
    ensures reports != [] ==>
              AfterAll(c, AsInputs(reports)).view.layer == IntegerOf(Get(Fold(c.raw, reports), LayerNum), 0)
  {
    hide After, Boundary, Merge, IntegerOf;
    if reports != [] {
      var shorter, last := reports[..|reports| - 1], reports[|reports| - 1];
      ReportsAccumulate(c, shorter);
      assert AsInputs(reports) == AsInputs(shorter) + [Firmware(Obj(last))];
      AfterAllAppend(c, AsInputs(shorter), Firmware(Obj(last)));
      ReportWithinJob(AfterAll(c, AsInputs(shorter)), last);
    }
  }

  function LayerOf(probe: Probe): int {
    if probe.Leaf? then IntegerOf(probe.value, 0) else 0
  }

  /** Through any run of partial reports of one job, the layer shown is the last one any of them carried. */
  lemma {:induction false} LayerIsLastReported(c: Core, reports: seq<Report>)
    requires OneJob(c.raw, reports) && reports != []
    ensures AfterAll(c, AsInputs(reports)).view.layer
         == LayerOf(LastWritten(reports, [LayerNum]).GetOr(ProbeAt(c.raw, [LayerNum])))
  {
    hide After, Boundary, Merge, Fold;
    ReportsAccumulate(c, reports);
    FoldIsLastWrite(c.raw, reports, [LayerNum]);
  }

  // ---------------------------------------------------------------------
  // What one subscriber receives

  // The snapshots published in a run of the fan-out.
  function Publications(ops: seq<DropOldest.FanOp<Snapshot>>): seq<Snapshot> {
    if ops == [] then []
    else
      Publications(ops[..|ops| - 1]) +
      match ops[|ops| - 1]
      case Publish(x) => [x]
      case _ => []
  }

  ghost predicate Rising(snapshots: seq<Snapshot>) {
    forall i, j | 0 <= i < j < |snapshots| :: snapshots[i].sequence < snapshots[j].sequence
  }

  // Everything put into a queue of the subscriber's own.
  lemma {:induction false} PushedAre(c: DropOldest.Channel<Snapshot>, capacity: int,
                                     ops: seq<DropOldest.FanOp<Snapshot>>, id: DropOldest.Subscriber)
    ensures DropOldest.Run(c, capacity, DropOldest.SeenBy(ops, id)).pushed == c.pushed + Publications(ops)
  {
    if ops == [] {
      assert c.pushed + [] == c.pushed;
    } else {
      var shorter := ops[..|ops| - 1];
      PushedAre(c, capacity, shorter, id);
      var seen := DropOldest.SeenBy(shorter, id);
      match ops[|ops| - 1]
      case Publish(x) =>
        assert (seen + [DropOldest.Put(x)])[..|seen|] == seen;
        assert (c.pushed + Publications(shorter)) + [x] == c.pushed + (Publications(shorter) + [x]);
      case Receive(j) =>
        assert Publications(shorter) + [] == Publications(shorter);
        if j == id {
          assert (seen + [DropOldest.Take(1)])[..|seen|] == seen;
        } else {
          assert seen + [] == seen;
        }
      case _ =>
        assert seen + [] == seen && Publications(shorter) + [] == Publications(shorter);
    }
  }

  lemma {:induction false} PublishedRise(c: Core, sequence: nat, inputs: seq<Input>)
    ensures Rising(Published(c, sequence, inputs))
    ensures forall x | x in Published(c, sequence, inputs) :: x.sequence > sequence
  {
    hide Published;
    var published := Published(c, sequence, inputs);
    forall i | 0 <= i < |published| ensures published[i].sequence == sequence + 1 + i {
      ConsecutiveSequence(c, sequence, inputs, i);
    }
  }

  // A selection in order from rising snapshots, then the rest of the queue behind it.
  lemma {:induction false} OrderRises(own: DropOldest.Channel<Snapshot>, capacity: int, ix: seq<nat>)
    requires DropOldest.InOrder(own, capacity, ix) && Rising(own.pushed)
    ensures Rising(own.delivered + own.queue)
  {
    var got, base := own.delivered + own.queue, |own.pushed| - |own.queue|;
    forall i, j | 0 <= i < j < |got| ensures got[i].sequence < got[j].sequence {
      if j < |ix| {
        assert ix[i] < ix[j];
      } else {
        assert got[j] == own.queue[j - |ix|] == own.pushed[base + (j - |ix|)];
        if i < |ix| {
          assert ix[i] <= ix[|ix| - 1] < base;
        } else {
          assert got[i] == own.queue[i - |ix|] == own.pushed[base + (i - |ix|)];
        }
      }
    }
  }

  // What a subscriber was handed on joining, and everything published since.
  lemma {:induction false} WelcomeThenPublished(f: DropOldest.Fan<Snapshot>, capacity: int,
                                                ops: seq<DropOldest.FanOp<Snapshot>>, id: DropOldest.Subscriber)
    ensures var welcome := if f.latest.Some? then [DropOldest.Put(f.latest.value)] else [];
            var own := DropOldest.Run(DropOldest.Empty(), capacity, welcome + DropOldest.SeenBy(ops, id));
            own.pushed == DropOldest.Welcome(f.latest) + Publications(ops)
  {
    var welcome := if f.latest.Some? then [DropOldest.Put(f.latest.value)] else [];
    var start := DropOldest.Run(DropOldest.Empty(), capacity, welcome);
    assert start.pushed == DropOldest.Welcome(f.latest) by {
      if f.latest.Some? {
        assert welcome[..|welcome| - 1] == [];
        assert DropOldest.Run(DropOldest.Empty(), capacity, []) == DropOldest.Empty<Snapshot>();
      }
    }
    DropOldest.RunSplits(DropOldest.Empty(), capacity, welcome, DropOldest.SeenBy(ops, id));
    PushedAre(start, capacity, ops, id);
  }

  /**
   * From the broker to one subscriber: whatever the broker takes in, however slowly this subscriber and the
   * others read, and whoever joins or leaves, the snapshots it receives, starting with the one it was handed
   * on joining, carry strictly increasing sequence numbers; none is seen twice or out of order.
   */
  lemma {:induction false} SnapshotsArriveInOrder(c: Core, sequence: nat, inputs: seq<Input>,
                                                  f: DropOldest.Fan<Snapshot>, capacity: int,
                                                  ops: seq<DropOldest.FanOp<Snapshot>>, id: DropOldest.Subscriber)
      returns (own: DropOldest.Channel<Snapshot>)
    requires Publications(ops) == Published(c, sequence, inputs) && DropOldest.Stays(ops, id)
    requires f.latest.Some? ==> f.latest.value.sequence <= sequence
    ensures own.pushed == DropOldest.Welcome(f.latest) + Published(c, sequence, inputs)
    ensures Rising(own.delivered + own.queue)
    ensures var after := DropOldest.FanRun(DropOldest.FanStep(f, capacity, DropOldest.Join(id)), capacity, ops);
            id in after.queues && after.queues[id] == own.queue
  {
    hide Published, DropOldest.InOrder, DropOldest.FanRun, DropOldest.Run, Publications, Rising;
    var ix;
    own, ix := DropOldest.SlowSubscribersDoNotMatter(f, capacity, ops, id);
    WelcomeThenPublished(f, capacity, ops, id);
    PublishedRise(c, sequence, inputs);
    WelcomeRises(f.latest, Published(c, sequence, inputs), sequence);
    OrderRises(own, capacity, ix);
  }

  lemma WelcomeRises(latest: Option<Snapshot>, published: seq<Snapshot>, sequence: nat)
    requires Rising(published) && forall x | x in published :: x.sequence > sequence
    requires latest.Some? ==> latest.value.sequence <= sequence
    ensures Rising(DropOldest.Welcome(latest) + published)
  {
    assert forall i | 0 <= i < |published| :: published[i] in published;
  }

  // ---------------------------------------------------------------------
  // Gateway submissions

  // The submitted file is the active job and is held in the registry.
  predicate Holds(c: Core, source: PrintSource) {
    && c.activeKey == Some(source.jobKey) && source.jobKey != ""
    && source.jobKey in c.sources && c.sources[source.jobKey] == source
    && c.view.jobKey == Some(source.jobKey)
  }

  // A report that leaves the submitted job in place: no boundary, or one the pending submission announced.
  predicate Follows(c: Core, report: Report) {
    !Boundary(c.raw, report) || Announces(c, report)
  }

  // An input that leaves it in place: no new submission, and no weak source for metadata to replace.
  predicate LeavesInPlace(c: Core, source: PrintSource, input: Input) {
    match input
    case Submit(job) => job.blob.None?
    case Firmware(report) => report.Obj? ==> Follows(c, report.fields)
    case Enrich(_, _, _) => source.kind != PrinterFtps
    case FileAccess(_) => true
  }

  predicate AllLeaveInPlace(c: Core, source: PrintSource, inputs: seq<Input>)
    decreases inputs
  {
    inputs == [] || (LeavesInPlace(c, source, inputs[0]) && AllLeaveInPlace(After(c, inputs[0]), source, inputs[1..]))
  }

  lemma {:induction false} SubmissionIsHeld(c: Core, job: Submission)
    requires job.blob.Some?
    ensures Holds(After(c, Submit(job)), GatewaySource(job))
  {
    hide ViewOf, GatewayKey, Phase, NameOf, ReportedUrl, Numbers, PlateEntry;
    GatewayKeyIsNotEmpty(job);
    var source := GatewaySource(job);
    RebuildShowsKey(
      c.(raw := c.raw[SubtaskName := Str(job.filename)]
                     [Param := Str(PlateEntry(job.plateId))]
                     [AmsMapping := Numbers(job.amsMapping.GetOr([]))],
         sources := map[source.jobKey := source], usageReferences := map[],
         pending := Some(source), activeKey := Some(source.jobKey)),
      Some(source.jobKey), source);
  }

  lemma RebuildShowsKey(c: Core, preferred: Option<string>, source: PrintSource)
    requires c.activeKey == Some(source.jobKey) && source.jobKey != ""
    requires source.jobKey in c.sources && c.sources[source.jobKey] == source
    requires preferred.None? || preferred == c.activeKey
    ensures Holds(Rebuild(c, preferred), source)
  {
    hide Phase, ReportedUrl, NameOf, MeaningfulIds, StatusOf, Mapping, TrayShown, TextOf, IntegerOf;
  }

  /**
   * From its submission on, a gateway job keeps its key and its file through every report that is not a
   * boundary, through the boundaries it announced, whatever ids the firmware attaches to it, and through
   * metadata and changes of file access.
   */
  lemma {:induction false} SubmittedJobSurvives(c: Core, source: PrintSource, inputs: seq<Input>)
    requires Holds(c, source) && AllLeaveInPlace(c, source, inputs)
    ensures var after := AfterAll(c, inputs);
            Holds(after, source) && SourceFor(after, source.jobKey) == Some(source)
    decreases inputs
  {
    hide After, LeavesInPlace;
    if inputs != [] {
      FollowingInput(c, source, inputs[0]);
      SubmittedJobSurvives(After(c, inputs[0]), source, inputs[1..]);
    }
  }

  lemma {:induction false} FollowingInput(c: Core, source: PrintSource, input: Input)
    requires Holds(c, source) && LeavesInPlace(c, source, input)
    ensures Holds(After(c, input), source)
  {
    hide Boundary, Merge, Rebuild, NameOf, EnrichedSources;
    match input
    case Submit(_) =>
    case Firmware(report) =>
      if report.Obj? {
        FollowingReport(c, source, report.fields);
      }
    case Enrich(jobKey, usage, url) =>
      if Accepts(c, jobKey) {
        StrongSourceStays(c, source, jobKey, usage, url);
        RebuildShowsKey(
          c.(usageReferences := map[jobKey := usage], sources := EnrichedSources(c, jobKey, usage, url)), None, source);
      }
    case FileAccess(available) =>
      RebuildShowsKey(c.(fileAvailable := available), None, source);
  }

  lemma StrongSourceStays(c: Core, source: PrintSource, jobKey: string, usage: Report, url: Option<CloudUrl>)
    requires source.jobKey in c.sources && c.sources[source.jobKey] == source && source.kind != PrinterFtps
    ensures var sources := EnrichedSources(c, jobKey, usage, url);
            source.jobKey in sources && sources[source.jobKey] == source
  {}

  lemma {:induction false} FollowingReport(c: Core, source: PrintSource, report: Report)
    requires Holds(c, source) && Follows(c, report)
    ensures Holds(After(c, Firmware(Obj(report))), source)
  {
    hide Boundary, Merge, Rebuild, NameOf;
    var base := if Boundary(c.raw, report) then Reset(c, report) else c;
    RebuildShowsKey(base.(raw := Merge(base.raw, report)), None, source);
  }
}
