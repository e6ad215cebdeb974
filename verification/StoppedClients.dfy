/** Whether a client that a reload stopped stays disconnected. */
module StoppedClients {
  import opened Prelude
  import opened PrinterService

  // ---------------------------------------------------------------------
  // Which steps give a client a session.

  // Someone who still holds the client uses it, or a subscriber comes to a broker that leases it.
  predicate Connects(w: World, step: Step, c: ClientId) {
    || step == Uses(c)
    || (step.Subscribe? && step.b < |w.feeds| && w.feeds[step.b].lease == Some(c))
  }

  // No client that existed before gained a session, and whatever was stopped meanwhile has none.
  ghost predicate Calm(w: World, n: World) {
    && |w.conns| <= |n.conns|
    && (forall c | 0 <= c < |w.conns| :: n.conns[c].session ==> w.conns[c].session)
    && (forall c | c in n.stopped && c !in w.stopped :: c < |n.conns| && !n.conns[c].session)
    && (forall c | c in w.stopped :: c in n.stopped)
  }

  lemma CalmTwice(a: World, b: World, c: World)
    requires Calm(a, b) && Calm(b, c)
    ensures Calm(a, c)
  {}

  lemma {:induction false} ReleasedSession(c: Connection, n: nat)
    ensures Released(c, n).session == c.session
    decreases n
  {
    if n > 0 {
      ReleasedSession(c, n - 1);
    }
  }

  lemma {:induction false} SetLeaseSessions(w: World, b: BrokerId, lease: Option<ClientId>)
    requires InRange(w) && b < |w.feeds| && (lease.Some? ==> lease.value < |w.conns|)
    ensures var n := SetLease(w, b, lease);
            && |n.conns| == |w.conns| && n.stopped == w.stopped
            && forall c | 0 <= c < |w.conns| && Some(c) != lease :: n.conns[c].session == w.conns[c].session
  {
    hide Released, Acquired, InRange;
    var before := w.feeds[b].lease;
    if before.Some? && before.value < |w.conns| {
      ReleasedSession(w.conns[before.value], w.feeds[b].subscribers);
    }
    assert before.Some? ==> before.value < |w.conns| by {
      LeaseInRange(w, b);
    }
  }

  lemma LeaseInRange(w: World, b: BrokerId)
    requires InRange(w) && b < |w.feeds|
    ensures w.feeds[b].lease.Some? ==> w.feeds[b].lease.value < |w.conns|
  {}

  lemma {:induction false} WireIsCalm(w: World, s: Serial, lease: Option<ClientId>)
    requires InRange(w) && (lease.Some? ==> lease.value < |w.conns|)
    ensures var n := Wire(w, s, lease);
            && |n.conns| == |w.conns| && n.stopped == w.stopped
            && forall c | 0 <= c < |w.conns| && Some(c) != lease :: n.conns[c].session == w.conns[c].session
  {
    hide SetLease, HasAddress;
    var w1 := SetFileFlag(WithBroker(w, s), s);
    SetLeaseSessions(w1, w1.brokers[s], lease);
  }

  lemma {:induction false} EnlistIsCalm(w: World, s: Serial, cfg: Config)
    requires InRange(w)
    ensures Calm(w, Enlist(w, s, cfg))
  {
    hide Wire, Display;
    var w1 := WithBroker(w, s);
    var conn := Connection(cfg, Display(cfg), false, 0, false, w1.brokers[s]);
    WireIsCalm(w1.(conns := w1.conns + [conn]), s, Some(|w.conns|));
  }

  lemma RetireIsCalm(w: World, s: Serial)
    requires InRange(w)
    ensures Calm(w, Retire(w, s))
  {}

  // A change that leaves clients and the log of stopped ones alone.
  lemma AsideIsCalm(w: World, n: World)
    requires n.conns == w.conns && n.stopped == w.stopped
    ensures Calm(w, n)
  {}

  lemma {:induction false} ReplaceIsCalm(w: World, s: Serial, cfg: Config)
    requires WorldOk(w) && InRange(w) && !HasRelay(w, s)
    ensures InRange(Retire(w, s)) && Calm(w, CloseProxy(Enlist(Retire(w, s), s, cfg), s))
  {
    hide WorldOk, InRange, Calm, Enlist, Retire, Enlisted;
    ReplaceKeeps(w, s, cfg);
    var w1 := Retire(w, s);
    RetireIsCalm(w, s);
    EnlistIsCalm(w1, s, cfg);
    CalmTwice(w, w1, Enlist(w1, s, cfg));
    AsideIsCalm(Enlist(w1, s, cfg), CloseProxy(Enlist(w1, s, cfg), s));
    CalmTwice(w, Enlist(w1, s, cfg), CloseProxy(Enlist(w1, s, cfg), s));
  }

  lemma RenameIsCalm(w: World, s: Serial, cfg: Config)
    requires InRange(w) && s in w.clients
    ensures Calm(w, Rename(w, s, cfg))
  {}

  lemma {:induction false} RemoveIsCalm(w: World, s: Serial)
    requires InRange(w)
    ensures Calm(w, Remove(w, s))
  {
    hide InRange, Calm, Retire;
    RetireIsCalm(w, s);
    AsideIsCalm(Retire(w, s), Remove(w, s));
    CalmTwice(w, Retire(w, s), Remove(w, s));
  }

  lemma {:induction false} RefreshIsCalm(w: World, cfg: Config)
    requires WorldOk(w) && InRange(w) && Enabled(w, Refreshes(cfg))
    ensures Calm(w, Refresh(w, cfg))
  {
    hide WorldOk, InRange, Calm, Enlist, Retire, Rename, CloseProxy;
    var s := cfg.serial;
    var w1 := w.(configs := w.configs[s := cfg]);
    ConfigsKeep(w, w1.configs);
    OkInRange(w1);
    ClientMeansNoRelay(w1, s);
    AsideIsCalm(w, w1);
    if !SameAddress(w.configs[s], cfg) {
      ReplaceIsCalm(w1, s, cfg);
      CalmTwice(w, w1, Refresh(w, cfg));
    } else if w.configs[s].name != cfg.name {
      RenameIsCalm(w1, s, cfg);
      CalmTwice(w, w1, Refresh(w, cfg));
    }
  }

  lemma {:induction false} AddIsCalm(w: World, cfg: Config)
    requires WorldOk(w) && InRange(w)
    ensures Calm(w, Add(w, cfg))
  {
    hide WorldOk, InRange, Calm, Enlist;
    var w1 := w.(configs := w.configs[cfg.serial := cfg]);
    ConfigsKeep(w, w1.configs);
    OkInRange(w1);
    AsideIsCalm(w, w1);
    EnlistIsCalm(w1, cfg.serial, cfg);
    CalmTwice(w, w1, Add(w, cfg));
  }

  lemma {:induction false} DropIsCalm(w: World, s: Serial)
    requires InRange(w)
    ensures Calm(w, DropLan(w, s))
  {
    hide InRange, Calm, Retire;
    if s in w.clients {
      RetireIsCalm(w, s);
      AsideIsCalm(Retire(w, s), DropLan(w, s));
      CalmTwice(w, Retire(w, s), DropLan(w, s));
    } else {
      AsideIsCalm(w, w);
    }
  }

  lemma {:induction false} ForgetIsCalm(w: World, s: Serial)
    requires InRange(w)
    ensures Calm(w, Forget(w, s))
  {
    hide InRange, Calm, DropLan;
    DropIsCalm(w, s);
    AsideIsCalm(DropLan(w, s), Forget(w, s));
    CalmTwice(w, DropLan(w, s), Forget(w, s));
  }

  lemma {:induction false} EnsureRelayIsCalm(w: World, cfg: Config)
    requires WorldOk(w) && InRange(w)
    ensures Calm(w, EnsureRelay(w, cfg))
  {
    hide WorldOk, InRange, DropLan, Wire, Display;
    var s := cfg.serial;
    DropLanKeeps(w, s);
    DropIsCalm(w, s);
    var w1 := DropLan(w, s);
    if w1.relays.Some? {
      WireIsCalm(w1, s, None);
    }
  }

  lemma {:induction false} EnsureLanIsCalm(w: World, cfg: Config, before: Option<Config>)
    requires WorldOk(w) && InRange(w) && !HasRelay(w, cfg.serial)
    ensures Calm(w, EnsureLan(w, cfg, before))
  {
    hide WorldOk, InRange, Calm, Enlist, Retire, Rename, CloseProxy;
    var s := cfg.serial;
    if s !in w.clients {
      EnlistIsCalm(w, s, cfg);
    } else if before.None? || !SameAddress(before.value, cfg) {
      ReplaceIsCalm(w, s, cfg);
    } else if before.value.name != cfg.name {
      RenameIsCalm(w, s, cfg);
    } else {
      AsideIsCalm(w, w);
    }
  }

  predicate Traffic(step: Step) {
    step.Subscribe? || step.Unsubscribe? || step.IdleFires? || step.Uses? || step.Hears?
  }

  lemma {:induction false} ReconciliationIsCalm(w: World, step: Step)
    requires WorldOk(w) && InRange(w) && Enabled(w, step) && !Traffic(step)
    ensures Calm(w, Next(w, step))
  {
    hide WorldOk, InRange, Calm, Remove, Refresh, Add, Forget, EnsureLan, EnsureRelay;
    match step
    case Removes(s) => RemoveIsCalm(w, s);
    case Refreshes(cfg) => RefreshIsCalm(w, cfg);
    case Adds(cfg) => AddIsCalm(w, cfg);
    case Forgets(s) => ForgetIsCalm(w, s);
    case Watches(s, jpeg) => AsideIsCalm(w, Watch(w, s, jpeg));
    case Configures(configs) => AsideIsCalm(w, w.(configs := configs));
    case Routes(cfg, lan, before) =>
      var w1 := WithoutRelay(w, cfg.serial);
      WithoutRelayKeeps(w, cfg.serial);
      OkInRange(w1);
      if lan {
        AsideIsCalm(w, w1);
        EnsureLanIsCalm(w1, cfg, before);
        CalmTwice(w, w1, EnsureLan(w1, cfg, before));
      } else {
        EnsureRelayIsCalm(w, cfg);
      }
  }

  lemma {:induction false} TrafficConnects(w: World, step: Step, c: ClientId)
    requires InRange(w) && Enabled(w, step) && Traffic(step) && c < |w.conns|
    ensures var n := Next(w, step);
            && |n.conns| == |w.conns| && n.stopped == w.stopped
            && (n.conns[c].session <==> Connects(w, step, c) || (w.conns[c].session && step != IdleFires(c)))
  {}

  /**
   * A disconnected client gets a session from exactly two steps: its own use, and a subscription to a broker that
   * leases it.
   */
  lemma {:induction false} ConnectsIff(w: World, step: Step, c: ClientId)
    requires WorldOk(w) && InRange(w) && Enabled(w, step) && c < |w.conns| && !w.conns[c].session
    ensures var n := Next(w, step);
            c < |n.conns| && (n.conns[c].session <==> Connects(w, step, c))
  {
    hide WorldOk, InRange, Enabled, Next;
    if Traffic(step) {
      TrafficConnects(w, step, c);
    } else {
      ReconciliationIsCalm(w, step);
    }
  }

  // ---------------------------------------------------------------------
  // Stopped clients, over whole runs.

  ghost predicate AllDisconnected(w: World) {
    forall c | c in w.stopped :: c < |w.conns| && !w.conns[c].session
  }

  // Some step of the run connects a client that was stopped by then.
  ghost predicate Revived(w: World, steps: seq<Step>)
    requires CanRun(w, steps)
    decreases steps
  {
    steps != [] && ((exists c :: c in w.stopped && Connects(w, steps[0], c)) || Revived(Next(w, steps[0]), steps[1..]))
  }

  /** While every stopped client is disconnected, a step changes that if and only if it connects one of them. */
  lemma {:induction false} StaysDisconnectedIff(w: World, step: Step)
    requires WorldOk(w) && InRange(w) && Enabled(w, step) && AllDisconnected(w)
    ensures AllDisconnected(Next(w, step)) <==> forall c | c in w.stopped :: !Connects(w, step, c)
  {
    hide WorldOk, InRange, Enabled, Next, Connects;
    var n := Next(w, step);
    forall c | c in w.stopped ensures c < |n.conns| && (n.conns[c].session <==> Connects(w, step, c)) {
      ConnectsIff(w, step, c);
    }
    if Traffic(step) {
      if |w.conns| > 0 {
        TrafficConnects(w, step, 0);
      }
      StoppedStays(w, step);
    } else {
      ReconciliationIsCalm(w, step);
    }
  }

  lemma StoppedStays(w: World, step: Step)
    requires InRange(w) && Enabled(w, step) && Traffic(step)
    ensures Next(w, step).stopped == w.stopped
  {}

  // At every point of the run.
  ghost predicate AlwaysDisconnected(w: World, steps: seq<Step>)
    requires CanRun(w, steps)
    decreases steps
  {
    AllDisconnected(w) && (steps == [] || AlwaysDisconnected(Next(w, steps[0]), steps[1..]))
  }

  lemma {:induction false} RunStaysDisconnectedIff(w: World, steps: seq<Step>)
    requires WorldOk(w) && CanRun(w, steps) && AllDisconnected(w)
    ensures AlwaysDisconnected(w, steps) <==> !Revived(w, steps)
    decreases steps
  {
    hide WorldOk, InRange, Enabled, Next, Connects, AllDisconnected;
    if steps != [] {
      StaysDisconnectedIff(w, steps[0]);
      StepKeeps(w, steps[0]);
      if AllDisconnected(Next(w, steps[0])) {
        RunStaysDisconnectedIff(Next(w, steps[0]), steps[1..]);
      } else {
        assert !AlwaysDisconnected(Next(w, steps[0]), steps[1..]);
      }
    }
  }

  /**
   * In every run: the clients stopped by reconciliation are disconnected at every point, if and only if no
   * step connects one of them.
   */
  lemma {:induction false} StoppedStayDisconnectedIff(relays: Option<map<Serial, Relay>>, steps: seq<Step>)
    requires NoRelaysYet(relays) && CanRun(Fresh(relays), steps)
    ensures AlwaysDisconnected(Fresh(relays), steps) <==> !Revived(Fresh(relays), steps)
  {
    hide AlwaysDisconnected, Revived, CanRun, WorldOk;
    FreshOk(relays);
    RunStaysDisconnectedIff(Fresh(relays), steps);
  }

  /** A printer is removed while someone still holds its broker, and subscribes: the stopped client connects. */
  lemma {:induction false} LateSubscriberConnects(cfg: Config)
    ensures var steps := [Adds(cfg), Removes(cfg.serial), Subscribe(0)];
            && CanRun(Fresh(None), steps)
            && var w := Run(Fresh(None), steps);
               w.stopped == [0] && |w.conns| == 1 && w.conns[0].session
  {
    var w0 := Fresh(None);
    var w1 := Next(w0, Adds(cfg));
    assert |w1.conns| == 1 && w1.feeds == [Broker(0, Some(0), HasAddress(cfg))];
    assert w1.clients == map[cfg.serial := 0] && cfg.serial in w1.configs && w1.stopped == [];
    var w2 := Next(w1, Removes(cfg.serial));
    assert w2.feeds == w1.feeds && w2.stopped == [0] && |w2.conns| == 1;
    var w3 := Next(w2, Subscribe(0));
    assert w3.conns[0].session && w3.stopped == [0];
    ThreeSteps(w0, w1, w2, Adds(cfg), Removes(cfg.serial), Subscribe(0));
  }

  lemma {:induction false} ThreeSteps(w0: World, w1: World, w2: World, a: Step, b: Step, c: Step)
    requires InRange(w0) && Enabled(w0, a) && w1 == Next(w0, a)
    requires InRange(w1) && Enabled(w1, b) && w2 == Next(w1, b)
    requires InRange(w2) && Enabled(w2, c)
    ensures CanRun(w0, [a, b, c]) && Run(w0, [a, b, c]) == Next(w2, c)
  {
    hide InRange, Enabled, Next;
    assert [a, b, c][1..] == [b, c];
    assert [b, c][1..] == [c];
    assert [c][1..] == [];
    assert CanRun(w2, [c]) && Run(w2, [c]) == Next(w2, c);
    assert CanRun(w1, [b, c]) && Run(w1, [b, c]) == Next(w2, c);
  }

  // ---------------------------------------------------------------------
  // Which brokers can do it.

  // Every registered broker belongs to a printer with a client or a relay.
  ghost predicate Attended(w: World) {
    forall s | s in w.brokers :: s in w.clients || HasRelay(w, s)
  }

  // Outside cloud mode nothing is routed to a relay; in it the relay registry is there.
  predicate Configured(w: World, step: Step) {
    step.Routes? && !step.lan ==> w.relays.Some?
  }

  lemma {:induction false} TrafficAttends(w: World, step: Step)
    requires InRange(w) && Enabled(w, step) && Traffic(step)
    ensures var n := Next(w, step); n.brokers == w.brokers && n.clients == w.clients && n.relays == w.relays
  {}

  lemma {:induction false} SetLeaseAttends(w: World, b: BrokerId, lease: Option<ClientId>)
    requires InRange(w) && b < |w.feeds| && (lease.Some? ==> lease.value < |w.conns|)
    ensures var n := SetLease(w, b, lease); n.clients == w.clients && n.brokers == w.brokers && n.relays == w.relays
  {
    hide Acquired, Released, InRange;
    LeaseInRange(w, b);
  }

  lemma {:induction false} WireAttends(w: World, s: Serial, lease: Option<ClientId>)
    requires InRange(w) && (lease.Some? ==> lease.value < |w.conns|)
    ensures var n := Wire(w, s, lease);
            n.clients == w.clients && n.brokers.Keys == w.brokers.Keys + {s} && n.relays == w.relays
  {
    hide SetLease, HasAddress;
    var w1 := SetFileFlag(WithBroker(w, s), s);
    SetLeaseAttends(w1, w1.brokers[s], lease);
  }

  lemma {:induction false} EnlistAttends(w: World, s: Serial, cfg: Config)
    requires InRange(w)
    ensures var n := Enlist(w, s, cfg);
            n.clients.Keys == w.clients.Keys + {s} && n.brokers.Keys == w.brokers.Keys + {s} && n.relays == w.relays
  {
    hide Wire, Display;
    var w1 := WithBroker(w, s);
    var conn := Connection(cfg, Display(cfg), false, 0, false, w1.brokers[s]);
    WireAttends(w1.(conns := w1.conns + [conn]), s, Some(|w.conns|));
  }

  lemma {:induction false} ReplaceAttends(w: World, s: Serial, cfg: Config)
    requires WorldOk(w) && InRange(w) && !HasRelay(w, s)
    ensures InRange(Retire(w, s))
    ensures var n := CloseProxy(Enlist(Retire(w, s), s, cfg), s);
            n.clients.Keys == w.clients.Keys + {s} && n.brokers.Keys == w.brokers.Keys + {s} && n.relays == w.relays
  {
    hide WorldOk, InRange, Enlist, Enlisted;
    ReplaceKeeps(w, s, cfg);
    EnlistAttends(Retire(w, s), s, cfg);
  }

  lemma {:induction false} RefreshAttends(w: World, cfg: Config)
    requires WorldOk(w) && InRange(w) && Enabled(w, Refreshes(cfg)) && Attended(w)
    ensures Attended(Refresh(w, cfg))
  {
    hide WorldOk, InRange, Enlist, Retire, CloseProxy, Display;
    var s := cfg.serial;
    var w1 := w.(configs := w.configs[s := cfg]);
    ConfigsKeep(w, w1.configs);
    OkInRange(w1);
    ClientMeansNoRelay(w1, s);
    if !SameAddress(w.configs[s], cfg) {
      ReplaceAttends(w1, s, cfg);
    }
  }

  lemma {:induction false} EnsureLanAttends(w: World, cfg: Config, before: Option<Config>)
    requires WorldOk(w) && InRange(w) && !HasRelay(w, cfg.serial)
    requires forall s | s in w.brokers && s != cfg.serial :: s in w.clients || HasRelay(w, s)
    ensures Attended(EnsureLan(w, cfg, before))
  {
    hide WorldOk, InRange, Enlist, Retire, CloseProxy, Display;
    var s := cfg.serial;
    if s !in w.clients {
      EnlistAttends(w, s, cfg);
    } else if before.None? || !SameAddress(before.value, cfg) {
      ReplaceAttends(w, s, cfg);
    }
  }

  lemma {:induction false} EnsureRelayAttends(w: World, cfg: Config)
    requires WorldOk(w) && InRange(w) && Attended(w) && w.relays.Some?
    ensures Attended(EnsureRelay(w, cfg))
  {
    hide WorldOk, InRange, Wire, Display;
    var s := cfg.serial;
    DropLanKeeps(w, s);
    var w1 := DropLan(w, s);
    assert w1.brokers == w.brokers && w1.relays == w.relays;
    WireAttends(w1, s, None);
  }

  lemma {:induction false} StepAttends(w: World, step: Step)
    requires WorldOk(w) && InRange(w) && Enabled(w, step) && Configured(w, step) && Attended(w)
    ensures Attended(Next(w, step))
  {
    hide WorldOk, InRange, Refresh, Enlist, EnsureLan, EnsureRelay, Watch, HasAddress;
    match step
    case Refreshes(cfg) => RefreshAttends(w, cfg);
    case Adds(cfg) =>
      var w1 := w.(configs := w.configs[cfg.serial := cfg]);
      ConfigsKeep(w, w1.configs);
      OkInRange(w1);
      EnlistAttends(w1, cfg.serial, cfg);
    case Routes(cfg, lan, before) =>
      WithoutRelayKeeps(w, cfg.serial);
      OkInRange(WithoutRelay(w, cfg.serial));
      if lan {
        EnsureLanAttends(WithoutRelay(w, cfg.serial), cfg, before);
      } else {
        EnsureRelayAttends(w, cfg);
      }
    case Removes(s) =>
    case Forgets(s) =>
    case Configures(_) =>
    case Watches(s, jpeg) => WatchAttends(w, s, jpeg);
    case _ => TrafficAttends(w, step);
  }

  lemma WatchAttends(w: World, s: Serial, jpeg: bool)
    ensures var n := Watch(w, s, jpeg); n.brokers == w.brokers && n.clients == w.clients && n.relays == w.relays
  {}

  ghost predicate AllConfigured(w: World, steps: seq<Step>)
    requires CanRun(w, steps)
    decreases steps
  {
    steps != [] ==> Configured(w, steps[0]) && AllConfigured(Next(w, steps[0]), steps[1..])
  }

  lemma {:induction false} RunAttends(w: World, steps: seq<Step>)
    requires WorldOk(w) && CanRun(w, steps) && Attended(w) && AllConfigured(w, steps)
    ensures WorldOk(Run(w, steps)) && Attended(Run(w, steps))
    decreases steps
  {
    hide WorldOk, InRange, Enabled, Next, Configured, Attended;
    if steps != [] {
      StepAttends(w, steps[0]);
      StepKeeps(w, steps[0]);
      RunAttends(Next(w, steps[0]), steps[1..]);
    }
  }

  /** A broker that leases a stopped client belongs to a printer that was removed: it is registered no more. */
  lemma {:induction false} OnlyRemovedBrokersLeaseStopped(relays: Option<map<Serial, Relay>>, steps: seq<Step>,
                                                          b: BrokerId, s: Serial)
    requires NoRelaysYet(relays) && CanRun(Fresh(relays), steps) && AllConfigured(Fresh(relays), steps)
    requires var w := Run(Fresh(relays), steps);
             b < |w.feeds| && w.feeds[b].lease.Some? && w.feeds[b].lease.value in w.stopped
    ensures var w := Run(Fresh(relays), steps);
            s in w.brokers ==> w.brokers[s] != b
  {
    hide Run, CanRun, AllConfigured, Leased;
    FreshOk(relays);
    assert Attended(Fresh(relays));
    RunAttends(Fresh(relays), steps);
  }
}
