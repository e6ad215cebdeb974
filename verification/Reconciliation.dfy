/** Outside cloud mode: in every run the registries mirror the configuration. */
module Reconciliation {
  import opened Prelude
  import opened PrinterService

  // ---------------------------------------------------------------------
  // Outside cloud mode the registries mirror the configuration.

  // The client registered for s dials the configured address and shows the configured name.
  ghost predicate Dials(w: World, s: Serial) {
    && s in w.configs && s in w.clients && w.clients[s] < |w.conns|
    && SameAddress(w.conns[w.clients[s]].config, w.configs[s])
    && w.conns[w.clients[s]].shown == Display(w.configs[s])
    && s in w.brokers && w.brokers[s] < |w.feeds|
    && w.feeds[w.brokers[s]].fileAvailable == HasAddress(w.configs[s])
  }

  ghost predicate LanOk(w: World) {
    && w.configs.Keys == w.clients.Keys == w.brokers.Keys
    && w.proxies.Keys <= w.configs.Keys
    && (forall s | s in w.configs :: w.configs[s].serial == s && Dials(w, s))
    && (forall s | s in w.proxies ::
        w.proxies[s] < |w.cameras| && w.cameras[w.proxies[s]] == Proxy(w.configs[s].ip, w.configs[s].accessCode))
    && w.relays.None?
  }

  predicate LanStep(step: Step) {
    !step.Configures? && !step.Forgets? && !step.Routes?
  }

  // Only leases, sessions and subscribers changed.
  ghost predicate Quiet(w: World, n: World) {
    && n == w.(conns := n.conns, feeds := n.feeds)
    && SameFaces(n.conns, w.conns)
    && |n.feeds| == |w.feeds|
    && forall b | 0 <= b < |w.feeds| :: n.feeds[b].fileAvailable == w.feeds[b].fileAvailable
  }

  lemma {:induction false} QuietKeeps(w: World, n: World)
    requires LanOk(w) && Quiet(w, n)
    ensures LanOk(n)
  {
    hide Display, HasAddress;
    forall s | s in n.configs
      ensures n.configs[s].serial == s && Dials(n, s)
    {
      assert Dials(w, s);
    }
  }

  lemma {:induction false} ConnectionIsQuiet(w: World, c: ClientId, conn: Connection)
    requires c < |w.conns| && conn.config == w.conns[c].config
    requires conn.shown == w.conns[c].shown && conn.wiredTo == w.conns[c].wiredTo
    ensures Quiet(w, w.(conns := w.conns[c := conn]))
  {}

  lemma {:induction false} TrafficIsQuiet(w: World, step: Step)
    requires InRange(w) && Enabled(w, step)
    requires step.Subscribe? || step.Unsubscribe? || step.IdleFires? || step.Uses? || step.Hears?
    ensures Quiet(w, Next(w, step))
  {
    hide Quiet;
    match step
    case Subscribe(b) => FeedIsQuiet(w, b, true);
    case Unsubscribe(b) => FeedIsQuiet(w, b, false);
    case IdleFires(c) => ConnectionIsQuiet(w, c, Stop(w.conns[c]));
    case Uses(c) => ConnectionIsQuiet(w, c, EnsureConnected(w.conns[c]));
    case Hears(c) => ConnectionIsQuiet(w, c, Schedule(w.conns[c]));
  }

  lemma {:induction false} FeedIsQuiet(w: World, b: BrokerId, arrive: bool)
    requires InRange(w) && b < |w.feeds| && (arrive || w.feeds[b].subscribers > 0)
    ensures Quiet(w, Next(w, if arrive then Subscribe(b) else Unsubscribe(b)))
  {
    hide Acquire, Release;
    if w.feeds[b].lease.Some? {
      FacesStay(w.conns[w.feeds[b].lease.value]);
    }
  }

  lemma FacesStay(c: Connection)
    ensures Acquire(c).config == Release(c).config == c.config
    ensures Acquire(c).shown == Release(c).shown == c.shown
    ensures Acquire(c).wiredTo == Release(c).wiredTo == c.wiredTo
  {}

  lemma {:induction false} WatchAgrees(w: World, s: Serial, jpeg: bool)
    requires LanOk(w)
    ensures LanOk(Watch(w, s, jpeg))
  {
    hide Display;
    var n := Watch(w, s, jpeg);
    forall t | t in n.configs
      ensures n.configs[t].serial == t && Dials(n, t)
    {
      assert Dials(w, t);
    }
  }

  lemma {:induction false} RemoveDials(w: World, s: Serial, t: Serial)
    requires InRange(w) && s in w.configs && t != s && Dials(w, t)
    ensures Dials(Remove(w, s), t)
  {
    hide Display, HasAddress, SameAddress;
  }

  lemma {:induction false} RemoveAgrees(w: World, s: Serial)
    requires LanOk(w) && InRange(w) && s in w.configs
    ensures LanOk(Remove(w, s))
  {
    hide Dials;
    var n := Remove(w, s);
    forall t | t in n.configs
      ensures Dials(n, t)
    {
      RemoveDials(w, s, t);
    }
  }

  lemma {:induction false} RenameDials(w: World, cfg: Config, t: Serial)
    requires InRange(w) && cfg.serial in w.configs && cfg.serial in w.clients && Dials(w, t)
    requires SameAddress(w.configs[cfg.serial], cfg)
    requires w.configs[cfg.serial].serial == cfg.serial
    requires t != cfg.serial ==> w.clients[t] != w.clients[cfg.serial]
    ensures Dials(Refresh(w, cfg), t)
  {
    hide Enlist;
    assert w.configs[cfg.serial].name == cfg.name ==> Display(w.configs[cfg.serial]) == Display(cfg);
  }

  lemma {:induction false} SerialsDiffer(w: World)
    requires WorldOk(w)
    ensures forall t, u | t in w.brokers && u in w.brokers && w.brokers[t] == w.brokers[u] :: t == u
    ensures forall t, u | t in w.clients && u in w.clients && w.clients[t] == w.clients[u] :: t == u
    ensures forall t, u | t in w.proxies && u in w.proxies && w.proxies[t] == w.proxies[u] :: t == u
  {}

  lemma {:induction false} RenameAgrees(w: World, cfg: Config)
    requires LanOk(w) && WorldOk(w) && InRange(w) && cfg.serial in w.configs && SameAddress(w.configs[cfg.serial], cfg)
    ensures LanOk(Refresh(w, cfg))
  {
    hide Dials, Enlist, Display, WorldOk, InRange;
    SerialsDiffer(w);
    var n := Refresh(w, cfg);
    forall t | t in n.configs
      ensures n.configs[t].serial == t && Dials(n, t)
    {
      RenameDials(w, cfg, t);
    }
  }

  lemma {:induction false} ResetAgrees(w: World, cfg: Config)
    requires LanOk(w) && WorldOk(w) && InRange(w) && cfg.serial in w.configs && !SameAddress(w.configs[cfg.serial], cfg)
    ensures LanOk(Refresh(w, cfg))
  {
    hide Dials, Enlist, Enlisted, WorldOk, InRange, SameAddress, CloseProxy;
    var s := cfg.serial;
    var w1 := w.(configs := w.configs[s := cfg]);
    ConfigsKeep(w, w1.configs);
    OkInRange(w1);
    ClientMeansNoRelay(w1, s);
    ReplaceKeeps(w1, s, cfg);
    var w2 := Retire(w1, s);
    SerialsDiffer(w);
    forall t | t in w2.configs && t != s
      ensures w2.configs[t].serial == t && Dials(w2, t)
    {
      RetireDials(w, w1, s, t);
    }
    EnlistedAgrees(w2, Enlist(w2, s, cfg), s, cfg);
  }

  lemma {:induction false} RetireDials(w: World, w1: World, s: Serial, t: Serial)
    requires InRange(w1) && Dials(w, t) && t != s
    requires w1 == w.(configs := w1.configs) && t in w1.configs && w1.configs[t] == w.configs[t]
    ensures Dials(Retire(w1, s), t)
  {
    hide Display, HasAddress, SameAddress;
  }

  lemma {:induction false} AddAgrees(w: World, cfg: Config)
    requires LanOk(w) && WorldOk(w) && InRange(w) && cfg.serial !in w.configs
    ensures LanOk(Add(w, cfg))
  {
    hide Dials, Enlist, Enlisted, WorldOk, InRange;
    var s := cfg.serial;
    var w1 := w.(configs := w.configs[s := cfg]);
    ConfigsKeep(w, w1.configs);
    SerialsDiffer(w);
    EnlistOk(w1, s, cfg);
    forall t | t in w1.configs && t != s
      ensures w1.configs[t].serial == t && Dials(w1, t)
    {
      AddedDials(w, w1, t);
    }
    var n := Enlist(w1, s, cfg);
    EnlistedAgrees(w1, n, s, cfg);
    EnlistedProxies(w1, n, s, cfg);
    assert CloseProxy(n, s) == n;
  }

  lemma EnlistedProxies(w: World, n: World, s: Serial, cfg: Config)
    requires Enlisted(w, n, s, cfg)
    ensures n.proxies == w.proxies && n.closed == w.closed && n.configs == w.configs && n.stopped == w.stopped
    ensures n.clients == w.clients[s := |w.conns|] && |n.conns| == |w.conns| + 1 && |n.feeds| >= |w.feeds|
    ensures n.brokers == (if s in w.brokers then w.brokers else w.brokers[s := |w.feeds|])
    ensures n.relays == w.relays && n.relayCount == w.relayCount && n.cameras == w.cameras
  {}

  lemma AddedDials(w: World, n: World, t: Serial)
    requires Dials(w, t) && n == w.(configs := n.configs) && t in n.configs && n.configs[t] == w.configs[t]
    ensures Dials(n, t)
  {}

  lemma {:induction false} EnlistedDials(w: World, n: World, s: Serial, cfg: Config, t: Serial)
    requires Enlisted(w, n, s, cfg)
    requires t == s ==> s in w.configs && w.configs[s] == cfg
    requires t != s ==> Dials(w, t) && (s in w.brokers ==> w.brokers[s] != w.brokers[t])
    ensures Dials(n, t)
  {
    hide Display, HasAddress;
    if t != s {
      assert n.conns[..|w.conns|][w.clients[t]] == n.conns[w.clients[t]];
    }
  }

  // s got a new client and a closed proxy; the others are as they were.
  lemma {:induction false} EnlistedAgrees(w: World, n: World, s: Serial, cfg: Config)
    requires Enlisted(w, n, s, cfg) && cfg.serial == s
    requires s in w.configs && w.configs[s] == cfg && w.relays.None?
    requires w.configs.Keys == w.clients.Keys + {s} == w.brokers.Keys + {s}
    requires w.proxies.Keys <= w.configs.Keys
    requires forall t | t in w.brokers && t != s && s in w.brokers :: w.brokers[t] != w.brokers[s]
    requires forall t | t in w.configs && t != s :: w.configs[t].serial == t && Dials(w, t)
    requires forall t | t in w.proxies && t != s ::
        w.proxies[t] < |w.cameras| && w.cameras[w.proxies[t]] == Proxy(w.configs[t].ip, w.configs[t].accessCode)
    ensures LanOk(CloseProxy(n, s))
  {
    hide Dials;
    forall t | t in n.configs
      ensures n.configs[t].serial == t && Dials(n, t)
    {
      EnlistedDials(w, n, s, cfg, t);
    }
    ClosedAgrees(n, s);
  }

  lemma {:induction false} ClosedAgrees(w: World, s: Serial)
    requires w.configs.Keys == w.clients.Keys == w.brokers.Keys && w.proxies.Keys <= w.configs.Keys && w.relays.None?
    requires forall t | t in w.configs :: w.configs[t].serial == t && Dials(w, t)
    requires forall t | t in w.proxies && t != s ::
        w.proxies[t] < |w.cameras| && w.cameras[w.proxies[t]] == Proxy(w.configs[t].ip, w.configs[t].accessCode)
    ensures LanOk(CloseProxy(w, s))
  {
    hide Dials;
    var n := CloseProxy(w, s);
    forall t | t in n.configs
      ensures Dials(n, t)
    {
      SameDials(w, n, t);
    }
  }

  lemma SameDials(w: World, n: World, t: Serial)
    requires Dials(w, t) && n.configs == w.configs && n.clients == w.clients && n.conns == w.conns
    requires n.brokers == w.brokers && n.feeds == w.feeds
    ensures Dials(n, t)
  {}

  lemma {:induction false} StepAgrees(w: World, step: Step)
    requires LanOk(w) && WorldOk(w) && InRange(w) && Enabled(w, step) && LanStep(step)
    ensures LanOk(Next(w, step))
  {
    hide LanOk, WorldOk, InRange, Quiet, Remove, Refresh, Add, Watch;
    match step
    case Removes(s) => RemoveAgrees(w, s);
    case Refreshes(cfg) =>
      if SameAddress(w.configs[cfg.serial], cfg) {
        RenameAgrees(w, cfg);
      } else {
        ResetAgrees(w, cfg);
      }
    case Adds(cfg) => AddAgrees(w, cfg);
    case Watches(s, jpeg) => WatchAgrees(w, s, jpeg);
    case _ =>
      TrafficIsQuiet(w, step);
      QuietKeeps(w, Next(w, step));
  }

  lemma {:induction false} RunAgrees(w: World, steps: seq<Step>)
    requires LanOk(w) && WorldOk(w) && CanRun(w, steps) && forall step | step in steps :: LanStep(step)
    ensures LanOk(Run(w, steps)) && WorldOk(Run(w, steps))
    decreases steps
  {
    hide LanOk, WorldOk, Enabled, Next, LanStep, InRange;
    if steps != [] {
      StepKeeps(w, steps[0]);
      StepAgrees(w, steps[0]);
      RunAgrees(Next(w, steps[0]), steps[1..]);
    }
  }

  /**
   * Outside cloud mode, in every run: the registries hold exactly the configured printers, and for each
   * of them the client dials the configured address and shows the configured name, the broker knows
   * whether the printer's files are reachable, and the camera proxy, if there is one, uses the
   * configured address.
   */
  lemma {:induction false} LanRegistryAgrees(steps: seq<Step>, s: Serial)
    requires CanRun(Fresh(None), steps) && forall step | step in steps :: LanStep(step)
    ensures var w := Run(Fresh(None), steps);
            && w.configs.Keys == w.clients.Keys == w.brokers.Keys
            && (s in w.configs ==> Dials(w, s))
            && (s in w.proxies ==>
                  && s in w.configs && w.proxies[s] < |w.cameras|
                  && w.cameras[w.proxies[s]] == Proxy(w.configs[s].ip, w.configs[s].accessCode))
  {
    FreshOk(None);
    RunAgrees(Fresh(None), steps);
  }
}
