/** The printer service object: its registries are reassigned step by step, as the reload walks the serials. */
module PrinterRegistry {
  import opened Prelude
  import opened PrinterService
  import opened Reconciliation
  import opened HotReload

  lemma {:induction false} AppendStep(w: World, steps: seq<Step>, last: Step)
    requires CanRun(w, steps) && InRange(Run(w, steps)) && Enabled(Run(w, steps), last)
    ensures CanRun(w, steps + [last]) && Run(w, steps + [last]) == Next(Run(w, steps), last)
    decreases steps
  {
    hide Enabled, Next, InRange;
    if steps == [] {
      assert steps + [last] == [last];
    } else {
      assert (steps + [last])[1..] == steps[1..] + [last];
      AppendStep(Next(w, steps[0]), steps[1..], last);
    }
  }

  lemma NothingRuns(w: World)
    ensures CanRun(w, []) && Run(w, []) == w
  {}

  // One more step of a run that keeps the accounts.
  lemma {:induction false} Follow(w: World, steps: seq<Step>, last: Step)
    requires CanRun(w, steps) && WorldOk(Run(w, steps)) && InRange(Run(w, steps)) && Enabled(Run(w, steps), last)
    ensures CanRun(w, steps + [last]) && Run(w, steps + [last]) == Next(Run(w, steps), last)
    ensures WorldOk(Next(Run(w, steps), last)) && InRange(Next(Run(w, steps), last))
  {
    hide WorldOk, Enabled, Next, InRange;
    AppendStep(w, steps, last);
    StepKeeps(Run(w, steps), last);
    OkInRange(Next(Run(w, steps), last));
  }

  // A client that is registered no more was stopped since.
  lemma {:induction false} Stopped(registry: map<Serial, nat>, created: nat, retired: seq<nat>,
                                   registry': map<Serial, nat>, created': nat, retired': seq<nat>, s: Serial)
    requires Accounted(registry, created, retired) && Accounted(registry', created', retired')
    requires retired <= retired' && created <= created' && s in registry
    requires forall t | t in registry' :: Lookup(registry', t) == Lookup(registry, t) || registry'[t] >= created
    ensures if Lookup(registry', s) == Some(registry[s]) then registry[s] !in retired'
            else registry[s] in retired'[|retired|..]
  {
    var c := registry[s];
    if Lookup(registry', s) != Some(c) {
      forall t | t in registry'
        ensures registry'[t] != c
      {
        assert Lookup(registry', t) == Lookup(registry, t) || registry'[t] >= created;
      }
      assert c in retired';
      assert retired' == retired + retired'[|retired|..];
    }
  }

  // What a reload outside cloud mode comes to.
  ghost predicate LanReloaded(w: World, n: World, list: seq<Config>) {
    var target := BySerial(list);
    && n.configs == target && n.clients.Keys == target.Keys
    && (forall s | s in target && s in w.configs && SameAddress(w.configs[s], target[s]) ::
          Lookup(n.clients, s) == Lookup(w.clients, s) && Lookup(n.proxies, s) == Lookup(w.proxies, s))
    && (forall s | s in target && !(s in w.configs && SameAddress(w.configs[s], target[s])) ::
          n.clients[s] >= |w.conns| && s !in n.proxies)
    && (forall s | s in target && s in w.configs :: Lookup(n.brokers, s) == Lookup(w.brokers, s))
    && (forall s | s in target && s !in w.configs :: s in n.brokers && n.brokers[s] >= |w.feeds|)
    && (forall s | s !in target :: s !in n.brokers && s !in n.proxies)
    && w.stopped <= n.stopped && w.closed <= n.closed && |w.conns| <= |n.conns| && w.cameras <= n.cameras
  }

  // What a reload in cloud mode comes to for s.
  predicate CloudOutcome(w: World, n: World, target: map<Serial, Config>, wantsLan: Config -> bool, s: Serial) {
    && Lookup(n.configs, s) == Lookup(target, s)
    && (s in n.clients <==> s in target && wantsLan(target[s]))
    && (w.relays.Some? ==> (RelayOf(n, s).Some? <==> s in target && !wantsLan(target[s])))
    && (s in n.clients ==>
          if s in w.clients && Unchanged(w.configs, target, s) then n.clients[s] == w.clients[s]
          else n.clients[s] >= |w.conns|)
    && (if s in w.clients && Lookup(n.clients, s) != Lookup(w.clients, s) then s !in n.proxies
        else Lookup(n.proxies, s) == Lookup(w.proxies, s))
    && (RelayOf(n, s).Some? ==>
          && s in target && RelayOf(n, s).value.name == Display(target[s])
          && (RelayOf(w, s).Some? ==> RelayOf(n, s).value.id == RelayOf(w, s).value.id))
  }

  ghost predicate CloudReloaded(w: World, n: World, list: seq<Config>, wantsLan: Config -> bool) {
    && Grown(w, n)
    && forall s: Serial :: CloudOutcome(w, n, BySerial(list), wantsLan, s)
  }

  // A reload outside cloud mode under way: run from w by these steps, with the serials in done settled.
  ghost predicate LanUnderWay(w: World, n: World, steps: seq<Step>, target: map<Serial, Config>, done: set<Serial>) {
    && WorldOk(w) && LanOk(w) && WorldOk(n) && LanOk(n) && InRange(n)
    && CanRun(w, steps) && Run(w, steps) == n
    && LanSofar(w, n, target, done)
    && forall s | s in target :: target[s].serial == s
  }

  lemma {:induction false} RemoveStep(w: World, n: World, steps: seq<Step>, target: map<Serial, Config>,
                                      done: set<Serial>, s: Serial)
    requires LanUnderWay(w, n, steps, target, done) && s in w.configs && s !in target && s !in done
    ensures InRange(n) && LanUnderWay(w, Remove(n, s), steps + [Removes(s)], target, done + {s})
  {
    hide WorldOk, LanOk, InRange, LanSofar, Remove, CanRun, Run;
    Present(w, n, target, done, s);
    Follow(w, steps, Removes(s));
    StepAgrees(n, Removes(s));
    RemoveAdvances(w, n, target, done, s);
  }

  lemma {:induction false} RefreshStep(w: World, n: World, steps: seq<Step>, target: map<Serial, Config>,
                                       done: set<Serial>, s: Serial)
    requires LanUnderWay(w, n, steps, target, done) && s in w.configs && s in target && s !in done
    ensures InRange(n) && WorldOk(n) && Enabled(n, Refreshes(target[s]))
    ensures LanUnderWay(w, Refresh(n, target[s]), steps + [Refreshes(target[s])], target, done + {s})
  {
    hide WorldOk, LanOk, InRange, LanSofar, Refresh, CanRun, Run;
    RefreshAdvances(w, n, target, done, s);
    Follow(w, steps, Refreshes(target[s]));
    StepAgrees(n, Refreshes(target[s]));
  }

  lemma {:induction false} AddingStep(w: World, n: World, steps: seq<Step>, target: map<Serial, Config>,
                                      done: set<Serial>, s: Serial)
    requires LanUnderWay(w, n, steps, target, done) && s !in w.configs && s in target && s !in done
    ensures InRange(n) && LanUnderWay(w, Add(n, target[s]), steps + [Adds(target[s])], target, done + {s})
  {
    hide WorldOk, LanOk, InRange, LanSofar, Add, CanRun, Run;
    AddAdvances(w, n, target, done, s);
    Follow(w, steps, Adds(target[s]));
    StepAgrees(n, Adds(target[s]));
  }

  lemma {:induction false} Underway(w: World, list: seq<Config>)
    requires WorldOk(w) && LanOk(w)
    ensures LanUnderWay(w, w, [], BySerial(list), {})
  {
    hide WorldOk, LanOk, InRange, LanSofar, CanRun, Run;
    SerialsMatch(list);
    OkInRange(w);
    NothingRuns(w);
    NothingDone(w, BySerial(list));
  }

  lemma {:induction false} LanArrives(w: World, n: World, steps: seq<Step>, list: seq<Config>)
    requires LanUnderWay(w, n, steps, BySerial(list), w.configs.Keys + BySerial(list).Keys)
    ensures WorldOk(n) && LanOk(n) && LanReloaded(w, n, list) && CanRun(w, steps) && Run(w, steps) == n
  {
    hide WorldOk, LanOk, InRange, LanSofar, CanRun, Run, LanReloaded;
    LanConcludes(w, n, list);
  }

  lemma {:induction false} LanConcludes(w: World, n: World, list: seq<Config>)
    requires LanOk(w) && LanOk(n)
    requires LanSofar(w, n, BySerial(list), w.configs.Keys + BySerial(list).Keys)
    ensures LanReloaded(w, n, list)
  {
    hide Dials, SameAddress;
    var target := BySerial(list);
    forall s: Serial
      ensures s in n.configs <==> s in target
      ensures s in target ==> n.configs[s] == target[s]
    {
      if s in target || s in w.configs {
        assert LanSettled(w, n, target, s);
      } else {
        assert Untouched(w, n, s);
      }
    }
    forall s | s !in target
      ensures s !in n.brokers && s !in n.proxies
    {
      if s in w.configs {
        assert LanSettled(w, n, target, s);
      } else {
        assert Untouched(w, n, s);
      }
    }
  }

  // The printer is still configured, at the same address.
  predicate Stays(w: World, list: seq<Config>, s: Serial)
    requires s in w.configs
  {
    s in BySerial(list) && SameAddress(w.configs[s], BySerial(list)[s])
  }

  lemma {:induction false} ClientsKeptOrNew(w: World, n: World, list: seq<Config>)
    requires LanReloaded(w, n, list)
    ensures forall t | t in n.clients :: Lookup(n.clients, t) == Lookup(w.clients, t) || n.clients[t] >= |w.conns|
    ensures forall t | t in n.proxies :: Lookup(n.proxies, t) == Lookup(w.proxies, t)
  {
    hide SameAddress, BySerial;
  }

  lemma {:induction false} StaysOrNot(w: World, n: World, list: seq<Config>, s: Serial)
    requires LanReloaded(w, n, list) && s in w.configs
    ensures Stays(w, list, s) ==>
              Lookup(n.clients, s) == Lookup(w.clients, s) && Lookup(n.proxies, s) == Lookup(w.proxies, s)
    ensures !Stays(w, list, s) ==> s !in n.proxies && (s in n.clients ==> n.clients[s] >= |w.conns|)
  {
    hide SameAddress, BySerial;
  }

  lemma AccountedMeans(registry: map<Serial, nat>, created: nat, retired: seq<nat>, s: Serial)
    requires Accounted(registry, created, retired) && s in registry
    ensures registry[s] < created
  {}

  /**
   * Outside cloud mode a reload stops exactly the clients it removes or replaces, each once, and closes
   * exactly their camera proxies.
   */
  lemma {:induction false} ReloadStopsTheReplaced(w: World, n: World, list: seq<Config>, s: Serial)
    requires Accounted(w.clients, |w.conns|, w.stopped) && Accounted(n.clients, |n.conns|, n.stopped)
    requires Accounted(w.proxies, |w.cameras|, w.closed) && Accounted(n.proxies, |n.cameras|, n.closed)
    requires LanReloaded(w, n, list) && s in w.clients && s in w.configs
    ensures if Stays(w, list, s) then s in n.clients && n.clients[s] == w.clients[s] && w.clients[s] !in n.stopped
            else w.clients[s] in n.stopped[|w.stopped|..]
    ensures s in w.proxies ==>
              if Stays(w, list, s) then s in n.proxies && n.proxies[s] == w.proxies[s] && w.proxies[s] !in n.closed
              else w.proxies[s] in n.closed[|w.closed|..]
    ensures Distinct(n.stopped) && Distinct(n.closed)
  {
    hide Accounted, Stays, SameAddress, BySerial;
    ClientsKeptOrNew(w, n, list);
    StaysOrNot(w, n, list, s);
    AccountedMeans(w.clients, |w.conns|, w.stopped, s);
    Stopped(w.clients, |w.conns|, w.stopped, n.clients, |n.conns|, n.stopped, s);
    if s in w.proxies {
      Stopped(w.proxies, |w.cameras|, w.closed, n.proxies, |n.cameras|, n.closed, s);
    }
    StoppedOnce(n.clients, |n.conns|, n.stopped);
    StoppedOnce(n.proxies, |n.cameras|, n.closed);
  }

  lemma StoppedOnce(registry: map<Serial, nat>, created: nat, retired: seq<nat>)
    requires Accounted(registry, created, retired)
    ensures Distinct(retired)
  {}

  /** In cloud mode every printer is on exactly one registry, and the two cover the configuration. */
  lemma {:induction false} RegistriesPartition(w: World, n: World, list: seq<Config>, wantsLan: Config -> bool)
    requires CloudReloaded(w, n, list, wantsLan) && w.relays.Some?
    ensures n.relays.Some? && n.configs == BySerial(list)
    ensures n.clients.Keys !! n.relays.value.Keys
    ensures n.clients.Keys + n.relays.value.Keys == n.configs.Keys
  {
    forall s: Serial
      ensures s in n.configs <==> s in BySerial(list)
      ensures s in n.configs ==> n.configs[s] == BySerial(list)[s]
      ensures !(s in n.clients && s in n.relays.value)
      ensures s in n.clients || s in n.relays.value <==> s in n.configs
    {
      assert CloudOutcome(w, n, BySerial(list), wantsLan, s);
    }
  }

  /**
   * In cloud mode as configured, where no printer wants a LAN client, a reload leaves every camera
   * proxy as it is, even of printers that were removed or moved to another address.
   */
  lemma {:induction false} CloudReloadKeepsProxies(w: World, n: World, list: seq<Config>)
    requires CloudReloaded(w, n, list, (_: Config) => false) && w.clients == map[]
    ensures n.proxies == w.proxies && n.clients == map[]
  {
    forall s: Serial
      ensures Lookup(n.proxies, s) == Lookup(w.proxies, s) && s !in n.clients
    {
      assert CloudOutcome(w, n, BySerial(list), (_: Config) => false, s);
    }
    forall s: Serial
      ensures s in n.proxies <==> s in w.proxies
      ensures s in n.proxies ==> n.proxies[s] == w.proxies[s]
    {
      assert Lookup(n.proxies, s) == Lookup(w.proxies, s);
    }
  }

  // The camera proxy of s, if it has one, would dial the address configured for it.
  predicate ProxyDials(w: World, s: Serial, cfg: Config) {
    s in w.proxies && w.proxies[s] < |w.cameras| && w.cameras[w.proxies[s]] == Proxy(cfg.ip, cfg.accessCode)
  }

  /**
   * When a camera proxy follows its printer through a cloud-mode reload, for every state and LAN policy:
   * exactly if the printer stays configured at the same address, and does not lose a LAN client.
   */
  lemma {:induction false} ProxyFollowsIff(w: World, n: World, list: seq<Config>, wantsLan: Config -> bool, s: Serial)
    requires CloudReloaded(w, n, list, wantsLan)
    requires s in w.configs && ProxyDials(w, s, w.configs[s])
    ensures s in n.configs && ProxyDials(n, s, n.configs[s]) <==>
              && Stays(w, list, s)
              && (s in w.clients ==> wantsLan(BySerial(list)[s]))
  {
    hide BySerial, Display;
    assert CloudOutcome(w, n, BySerial(list), wantsLan, s);
  }

  /**
   * In cloud mode as configured there are no LAN clients: a proxy that dialled its printer still does
   * after a reload if and only if the printer is still configured at the same address.
   */
  lemma {:induction false} CloudProxyFollowsIff(w: World, n: World, list: seq<Config>, s: Serial)
    requires CloudReloaded(w, n, list, (_: Config) => false) && w.clients == map[]
    requires s in w.configs && ProxyDials(w, s, w.configs[s])
    ensures s in n.configs && ProxyDials(n, s, n.configs[s]) <==>
              s in BySerial(list) && SameAddress(w.configs[s], BySerial(list)[s])
    ensures ProxyDials(n, s, w.configs[s])
  {
    hide BySerial, Display;
    ProxyFollowsIff(w, n, list, (_: Config) => false, s);
    assert CloudOutcome(w, n, BySerial(list), (_: Config) => false, s);
  }

  lemma {:induction false} FirstReload(n: World, cfg: Config)
    requires CloudReloaded(Fresh(Some(map[])), n, [cfg], (_: Config) => false)
    ensures cfg.serial in n.configs && n.configs[cfg.serial] == cfg && cfg.serial !in n.proxies && n.clients == map[]
  {
    OneListed(cfg);
    CloudReloadKeepsProxies(Fresh(Some(map[])), n, [cfg]);
    assert CloudOutcome(Fresh(Some(map[])), n, BySerial([cfg]), (_: Config) => false, cfg.serial);
  }

  lemma OneListed(cfg: Config)
    ensures BySerial([cfg]) == map[cfg.serial := cfg]
  {
    assert [cfg][..0] == [];
  }

  /**
   * Any printer that moves in cloud mode after someone looked at its camera: configured, watched, and
   * reloaded at another address, its camera proxy still dials the old one.
   */
  lemma {:induction false} StaleProxy(cfg: Config, moved: Config, first: World, second: World)
    requires HasAddress(cfg) && moved.serial == cfg.serial && !SameAddress(cfg, moved)
    requires CloudReloaded(Fresh(Some(map[])), first, [cfg], (_: Config) => false) && InRange(first)
    requires CloudReloaded(Watch(first, cfg.serial, true), second, [moved], (_: Config) => false)
    ensures cfg.serial in second.configs && second.configs[cfg.serial] == moved
    ensures ProxyDials(second, cfg.serial, cfg) && !ProxyDials(second, cfg.serial, moved)
  {
    var s, watched := cfg.serial, Watch(first, cfg.serial, true);
    FirstReload(first, cfg);
    OneListed(moved);
    CloudProxyFollowsIff(watched, second, [moved], s);
    assert CloudOutcome(watched, second, BySerial([moved]), (_: Config) => false, s);
  }

  // A reload in cloud mode under way, from w with its configuration already replaced.
  ghost predicate CloudUnderWay(w: World, n: World, steps: seq<Step>, target: map<Serial, Config>,
                                wantsLan: Config -> bool, done: set<Serial>) {
    var base := w.(configs := target);
    && WorldOk(n) && InRange(n)
    && CanRun(w, steps) && Run(w, steps) == n
    && Grown(base, n)
    && (forall s: Serial | s in done :: CloudSettled(w.configs, base, n, target, s in target && wantsLan(target[s]), s))
    && (forall s: Serial | s !in done :: Untouched(base, n, s))
    && forall s | s in target :: target[s].serial == s
  }

  lemma {:induction false} CloudBegins(w: World, list: seq<Config>, wantsLan: Config -> bool)
    requires WorldOk(w)
    ensures var target := BySerial(list);
            CloudUnderWay(w, w.(configs := target), [Configures(target)], target, wantsLan, {})
  {
    hide WorldOk, InRange, CanRun, Run;
    var target := BySerial(list);
    SerialsMatch(list);
    OkInRange(w);
    NothingRuns(w);
    Follow(w, [], Configures(target));
    assert [] + [Configures(target)] == [Configures(target)];
  }

  lemma {:induction false} CloudAdvances(w: World, n: World, m: World, target: map<Serial, Config>,
                                         wantsLan: Config -> bool, done: set<Serial>, s: Serial)
    requires var base := w.(configs := target);
             && Grown(base, n) && Touches(n, m, s)
             && (forall t: Serial | t in done ::
                 CloudSettled(w.configs, base, n, target, t in target && wantsLan(target[t]), t))
             && (forall t: Serial | t !in done :: Untouched(base, n, t))
             && CloudSettled(w.configs, base, m, target, s in target && wantsLan(target[s]), s)
    ensures var base := w.(configs := target);
            && Grown(base, m)
            && (forall t: Serial | t in done + {s} ::
                CloudSettled(w.configs, base, m, target, t in target && wantsLan(target[t]), t))
            && (forall t: Serial | t !in done + {s} :: Untouched(base, m, t))
  {
    hide SameAddress, Display;
    var base := w.(configs := target);
    forall t: Serial | t in done + {s}
      ensures CloudSettled(w.configs, base, m, target, t in target && wantsLan(target[t]), t)
    {
      if t != s {
        assert CloudSettled(w.configs, base, n, target, t in target && wantsLan(target[t]), t) && Untouched(n, m, t);
      }
    }
    forall t: Serial | t !in done + {s}
      ensures Untouched(base, m, t)
    {
      assert Untouched(base, n, t) && Untouched(n, m, t);
    }
  }

  lemma {:induction false} ForgetStep(w: World, n: World, steps: seq<Step>, target: map<Serial, Config>,
                                      wantsLan: Config -> bool, done: set<Serial>, s: Serial)
    requires CloudUnderWay(w, n, steps, target, wantsLan, done) && s !in target && s !in done
    ensures InRange(n) && CloudUnderWay(w, Forget(n, s), steps + [Forgets(s)], target, wantsLan, done + {s})
  {
    hide WorldOk, InRange, CanRun, Run, Forget, CloudSettled, Untouched, Grown, Touches;
    Follow(w, steps, Forgets(s));
    ForgetSettles(w.configs, w.(configs := target), n, target, false, s);
    CloudAdvances(w, n, Forget(n, s), target, wantsLan, done, s);
  }

  lemma {:induction false} RouteStep(w: World, n: World, steps: seq<Step>, target: map<Serial, Config>,
                                     wantsLan: Config -> bool, done: set<Serial>, s: Serial)
    requires CloudUnderWay(w, n, steps, target, wantsLan, done) && s in target && s !in done
    ensures InRange(n) && WorldOk(n)
    ensures var step := Routes(target[s], wantsLan(target[s]), Lookup(w.configs, s));
            CloudUnderWay(w, Next(n, step), steps + [step], target, wantsLan, done + {s})
  {
    hide WorldOk, InRange, CanRun, Run, EnsureLan, EnsureRelay, CloudSettled, Untouched, Grown, Touches;
    var lan := wantsLan(target[s]);
    var step := Routes(target[s], lan, Lookup(w.configs, s));
    Follow(w, steps, step);
    if lan {
      LanSettles(w.configs, w.(configs := target), n, target, s);
    } else {
      RelaySettles(w.configs, w.(configs := target), n, target, s);
    }
    CloudAdvances(w, n, Next(n, step), target, wantsLan, done, s);
  }

  // The serials with anything registered for them.
  function Registered(w: World): set<Serial> {
    w.configs.Keys + w.clients.Keys + if w.relays.Some? then w.relays.value.Keys else {}
  }

  lemma {:induction false} OutcomeOf(w: World, n: World, target: map<Serial, Config>, wantsLan: Config -> bool,
                                     s: Serial)
    requires var base := w.(configs := target);
             && Grown(base, n)
             && if s in target || s in Registered(w)
               then CloudSettled(w.configs, base, n, target, s in target && wantsLan(target[s]), s)
                else Untouched(base, n, s)
    ensures CloudOutcome(w, n, target, wantsLan, s)
  {
    hide Display, SameAddress;
  }

  lemma {:induction false} CloudArrives(w: World, n: World, steps: seq<Step>, list: seq<Config>,
                                        wantsLan: Config -> bool)
    requires CloudUnderWay(w, n, steps, BySerial(list), wantsLan,
                           (Registered(w) - BySerial(list).Keys) + BySerial(list).Keys)
    ensures WorldOk(n) && CloudReloaded(w, n, list, wantsLan) && CanRun(w, steps) && Run(w, steps) == n
  {
    hide WorldOk, InRange, CanRun, Run, Registered, CloudSettled, CloudOutcome, Untouched, BySerial;
    var target := BySerial(list);
    var base := w.(configs := target);
    forall s: Serial
      ensures CloudOutcome(w, n, target, wantsLan, s)
    {
      OutcomeOf(w, n, target, wantsLan, s);
    }
  }

  // ---------------------------------------------------------------------

  class Registry {
    var configs: map<Serial, Config>
    var clients: map<Serial, ClientId>
    var relays: Option<map<Serial, Relay>>
    var proxies: map<Serial, ProxyId>
    var brokers: map<Serial, BrokerId>
    var conns: seq<Connection>
    var feeds: seq<Broker>
    var cameras: seq<Proxy>
    var relayCount: nat
    var stopped: seq<ClientId>
    var closed: seq<ProxyId>

    function State(): World
      reads this
    {
      World(configs, clients, relays, proxies, brokers, conns, feeds, cameras, relayCount, stopped, closed)
    }

    constructor (cloudMode: bool)
      ensures State() == Fresh(if cloudMode then Some(map[]) else None)
    {
      configs, clients, proxies, brokers := map[], map[], map[], map[];
      relays := if cloudMode then Some(map[]) else None;
      conns, feeds, cameras, relayCount, stopped, closed := [], [], [], 0, [], [];
    }

    // Releases the client's lease once for each subscriber.
    method ReleaseEach(c: ClientId, n: nat)
      requires c < |conns|
      modifies this`conns
      ensures conns == old(conns)[c := Released(old(conns)[c], n)]
    {
      for i := 0 to n
        invariant conns == old(conns)[c := Released(old(conns)[c], i)]
      {
        conns := conns[c := Release(conns[c])];
      }
    }

    method AcquireEach(c: ClientId, n: nat)
      requires c < |conns|
      modifies this`conns
      ensures conns == old(conns)[c := Acquired(old(conns)[c], n)]
    {
      for i := 0 to n
        invariant conns == old(conns)[c := Acquired(old(conns)[c], i)]
      {
        conns := conns[c := Acquire(conns[c])];
      }
    }

    method SetConnectionLease(b: BrokerId, lease: Option<ClientId>)
      requires InRange(State()) && b < |feeds| && (lease.Some? ==> lease.value < |conns|)
      modifies this`conns, this`feeds
      ensures State() == SetLease(old(State()), b, lease)
    {
      var before := feeds[b].lease;
      var n := feeds[b].subscribers;
      feeds := feeds[b := feeds[b].(lease := lease)];
      if before.Some? && before != lease {
        ReleaseEach(before.value, n);
      }
      if lease.Some? && before != lease {
        AcquireEach(lease.value, n);
      }
    }

    method EnsureBroker(s: Serial)
      modifies this`brokers, this`feeds
      ensures State() == WithBroker(old(State()), s)
    {
      if s !in brokers {
        brokers := brokers[s := |feeds|];
        feeds := feeds + [Broker(0, None, true)];
      }
    }

    method WirePrintClient(s: Serial, lease: Option<ClientId>)
      requires InRange(State()) && (lease.Some? ==> lease.value < |conns|)
      modifies this`brokers, this`feeds, this`conns
      ensures State() == Wire(old(State()), s, lease)
    {
      EnsureBroker(s);
      var b := brokers[s];
      feeds := feeds[b := feeds[b].(fileAvailable := s in configs && HasAddress(configs[s]))];
      SetConnectionLease(b, lease);
    }

    method NewLanClient(s: Serial, cfg: Config)
      requires InRange(State())
      modifies this`brokers, this`feeds, this`conns, this`clients
      ensures State() == Enlist(old(State()), s, cfg)
    {
      hide SetLease;
      EnsureBroker(s);
      var c := |conns|;
      conns := conns + [Connection(cfg, Display(cfg), false, 0, false, brokers[s])];
      WirePrintClient(s, Some(c));
      clients := clients[s := c];
    }

    method StopClient(s: Serial)
      requires InRange(State())
      modifies this`clients, this`conns, this`stopped
      ensures State() == Retire(old(State()), s)
    {
      if s in clients {
        var c := clients[s];
        clients := clients - {s};
        conns := conns[c := Stop(conns[c])];
        stopped := stopped + [c];
      }
    }

    method PopProxy(s: Serial)
      modifies this`proxies, this`closed
      ensures State() == CloseProxy(old(State()), s)
    {
      if s in proxies {
        closed := closed + [proxies[s]];
        proxies := proxies - {s};
      }
    }

    method SetShownName(s: Serial, cfg: Config)
      requires InRange(State()) && s in clients
      modifies this`conns
      ensures State() == Rename(old(State()), s, cfg)
    {
      var c := clients[s];
      conns := conns[c := conns[c].(shown := Display(cfg))];
    }

    method RemovePrinter(s: Serial)
      requires InRange(State())
      modifies this
      ensures State() == Remove(old(State()), s)
    {
      StopClient(s);
      configs := configs - {s};
      brokers := brokers - {s};
      PopProxy(s);
    }

    method CheckPrinter(cfg: Config)
      requires WorldOk(State()) && InRange(State()) && Enabled(State(), Refreshes(cfg))
      modifies this
      ensures State() == Refresh(old(State()), cfg)
    {
      hide WorldOk, Enlist, Retire, CloseProxy, Rename, InRange;
      var s := cfg.serial;
      var before := configs[s];
      configs := configs[s := cfg];
      ConfigsKeep(old(State()), configs);
      OkInRange(State());
      if before.ip != cfg.ip || before.accessCode != cfg.accessCode {
        RetireKeeps(State(), s);
        OkInRange(Retire(State(), s));
        StopClient(s);
        NewLanClient(s, cfg);
        PopProxy(s);
      } else if before.name != cfg.name {
        SetShownName(s, cfg);
      }
    }

    method AddPrinter(cfg: Config)
      requires InRange(State())
      modifies this
      ensures State() == Add(old(State()), cfg)
    {
      configs := configs[cfg.serial := cfg];
      NewLanClient(cfg.serial, cfg);
    }

    /** sync_printers outside cloud mode. */
    method SyncPrinters(list: seq<Config>) returns (ghost steps: seq<Step>)
      requires WorldOk(State()) && LanOk(State())
      modifies this
      ensures WorldOk(State()) && LanOk(State())
      ensures LanReloaded(old(State()), State(), list)
      ensures CanRun(old(State()), steps) && Run(old(State()), steps) == State()
    {
      hide WorldOk, LanOk, InRange, CanRun, Run, LanUnderWay, LanReloaded, Remove, Refresh, Add, BySerial, Enabled;
      ghost var w := State();
      var target := Index(list);
      var removed := configs.Keys - target.Keys;
      var added := target.Keys - configs.Keys;
      var checked := configs.Keys * target.Keys;
      steps := [];
      ghost var done: set<Serial> := {};
      Underway(w, list);

      var todo := removed;
      while todo != {}
        invariant LanUnderWay(w, State(), steps, target, done)
        invariant todo <= removed && done == removed - todo
        decreases todo
      {
        var s :| s in todo;
        RemoveStep(w, State(), steps, target, done, s);
        RemovePrinter(s);
        steps := steps + [Removes(s)];
        todo, done := todo - {s}, done + {s};
      }

      todo := checked;
      while todo != {}
        invariant LanUnderWay(w, State(), steps, target, done)
        invariant todo <= checked && done == removed + (checked - todo)
        decreases todo
      {
        var s :| s in todo;
        RefreshStep(w, State(), steps, target, done, s);
        CheckPrinter(target[s]);
        steps := steps + [Refreshes(target[s])];
        todo, done := todo - {s}, done + {s};
      }

      todo := added;
      while todo != {}
        invariant LanUnderWay(w, State(), steps, target, done)
        invariant todo <= added && done == removed + checked + (added - todo)
        decreases todo
      {
        var s :| s in todo;
        AddingStep(w, State(), steps, target, done, s);
        AddPrinter(target[s]);
        steps := steps + [Adds(target[s])];
        todo, done := todo - {s}, done + {s};
      }
      assert done == w.configs.Keys + target.Keys;
      LanArrives(w, State(), steps, list);
    }

    method DropLanClient(s: Serial)
      requires InRange(State())
      modifies this
      ensures State() == DropLan(old(State()), s)
    {
      if s in clients {
        StopClient(s);
        PopProxy(s);
      }
    }

    method DropRelay(s: Serial)
      modifies this`relays
      ensures State() == WithoutRelay(old(State()), s)
    {
      if relays.Some? {
        relays := Some(relays.value - {s});
      }
    }

    method EnsureLanClient(cfg: Config, before: Option<Config>)
      requires WorldOk(State()) && InRange(State())
      modifies this
      ensures State() == EnsureLan(old(State()), cfg, before)
    {
      hide WorldOk, Enlist, Retire, CloseProxy, Rename, InRange;
      var s := cfg.serial;
      if s !in clients {
        NewLanClient(s, cfg);
      } else if before.None? || before.value.ip != cfg.ip || before.value.accessCode != cfg.accessCode {
        RetireKeeps(State(), s);
        OkInRange(Retire(State(), s));
        StopClient(s);
        NewLanClient(s, cfg);
        PopProxy(s);
      } else if before.value.name != cfg.name {
        SetShownName(s, cfg);
      }
    }

    method RouteToRelay(cfg: Config)
      requires WorldOk(State()) && InRange(State())
      modifies this
      ensures State() == EnsureRelay(old(State()), cfg)
    {
      hide WorldOk, InRange, Wire, DropLan, Display, Unleased;
      var s := cfg.serial;
      DropLanKeeps(State(), s);
      DropLanClient(s);
      if relays.Some? {
        UnleaseKeeps(State(), s);
        UnleasedTouches(State(), Wire(State(), s, None), s);
      }
      if relays.None? {
        return;
      }
      var display := Display(cfg);
      WirePrintClient(s, None);
      if s !in relays.value {
        relays := Some(relays.value[s := Relay(relayCount, display)]);
        relayCount := relayCount + 1;
      } else {
        relays := Some(relays.value[s := relays.value[s].(name := display)]);
      }
    }

    /** sync_printers in cloud mode, for any LAN policy. */
    method SyncCloudPrinters(list: seq<Config>, wantsLan: Config -> bool) returns (ghost steps: seq<Step>)
      requires WorldOk(State())
      modifies this
      ensures WorldOk(State()) && CloudReloaded(old(State()), State(), list, wantsLan)
      ensures CanRun(old(State()), steps) && Run(old(State()), steps) == State()
    {
      hide WorldOk, InRange, CanRun, Run, CloudUnderWay, CloudReloaded, DropLan, WithoutRelay, EnsureLan, EnsureRelay,
        BySerial;
      ghost var w := State();
      var target := Index(list);
      var before := configs;
      var gone := Registered(State()) - target.Keys;
      CloudBegins(w, list, wantsLan);
      configs := target;
      steps := [Configures(target)];
      ghost var done: set<Serial> := {};

      var todo := gone;
      while todo != {}
        invariant CloudUnderWay(w, State(), steps, target, wantsLan, done)
        invariant todo <= gone && done == gone - todo
        decreases todo
      {
        var s :| s in todo;
        ForgetStep(w, State(), steps, target, wantsLan, done, s);
        ForgetPrinter(s);
        steps := steps + [Forgets(s)];
        todo, done := todo - {s}, done + {s};
      }

      todo := target.Keys;
      while todo != {}
        invariant CloudUnderWay(w, State(), steps, target, wantsLan, done)
        invariant todo <= target.Keys && done == gone + (target.Keys - todo)
        decreases todo
      {
        var s :| s in todo;
        ghost var step := Routes(target[s], wantsLan(target[s]), Lookup(before, s));
        RouteStep(w, State(), steps, target, wantsLan, done, s);
        RoutePrinter(target[s], wantsLan(target[s]), Lookup(before, s));
        steps := steps + [step];
        todo, done := todo - {s}, done + {s};
      }
      assert done == (Registered(w) - target.Keys) + target.Keys;
      CloudArrives(w, State(), steps, list, wantsLan);
    }

    method ForgetPrinter(s: Serial)
      requires InRange(State())
      modifies this
      ensures State() == Forget(old(State()), s)
    {
      DropLanClient(s);
      DropRelay(s);
      brokers := brokers - {s};
    }

    method RoutePrinter(cfg: Config, lan: bool, before: Option<Config>)
      requires WorldOk(State()) && InRange(State())
      modifies this
      ensures State() == Next(old(State()), Routes(cfg, lan, before))
    {
      hide WorldOk, InRange, EnsureLan, EnsureRelay, WithoutRelay;
      if lan {
        WithoutRelayKeeps(State(), cfg.serial);
        OkInRange(WithoutRelay(State(), cfg.serial));
        DropRelay(cfg.serial);
        EnsureLanClient(cfg, before);
      } else {
        RouteToRelay(cfg);
      }
    }

    // get_camera_proxy: whether the model's camera streams JPEG over TCP is an input.
    method GetCameraProxy(s: Serial, jpeg: bool) returns (proxy: Option<ProxyId>)
      requires InRange(State())
      modifies this`proxies, this`cameras
      ensures State() == Watch(old(State()), s, jpeg)
      ensures proxy == Lookup(proxies, s)
    {
      if s in proxies {
        return Some(proxies[s]);
      }
      if s !in configs || configs[s].ip == "" || configs[s].accessCode == "" || !jpeg {
        return None;
      }
      proxies := proxies[s := |cameras|];
      cameras := cameras + [Proxy(configs[s].ip, configs[s].accessCode)];
      return Some(proxies[s]);
    }
  }

  /** The same run of the service object's own methods. */
  method MovedPrinter(cfg: Config, moved: Config) returns (dialled: Proxy, configured: Config)
    requires HasAddress(cfg) && moved.serial == cfg.serial && !SameAddress(cfg, moved)
    ensures configured == moved && dialled == Proxy(cfg.ip, cfg.accessCode)
  {
    var r := new Registry(true);
    FreshOk(Some(map[]));
    ghost var steps := r.SyncCloudPrinters([cfg], (_: Config) => false);
    ghost var first := r.State();
    OkInRange(first);
    FirstReload(first, cfg);
    var proxy := r.GetCameraProxy(cfg.serial, true);
    WatchKeeps(first, cfg.serial, true);
    steps := r.SyncCloudPrinters([moved], (_: Config) => false);
    StaleProxy(cfg, moved, first, r.State());
    configured := r.configs[cfg.serial];
    dialled := r.cameras[r.proxies[cfg.serial]];
  }

  method Index(list: seq<Config>) returns (target: map<Serial, Config>)
    ensures target == BySerial(list)
  {
    target := map[];
    for i := 0 to |list|
      invariant target == BySerial(list[..i])
    {
      assert list[..i + 1][..i] == list[..i];
      target := target[list[i].serial := list[i]];
    }
    assert list[..|list|] == list;
  }

  lemma {:induction false} SerialsMatch(list: seq<Config>)
    ensures forall s | s in BySerial(list) :: BySerial(list)[s].serial == s
    decreases list
  {
    if list != [] {
      SerialsMatch(list[..|list| - 1]);
    }
  }

  lemma NothingDone(w: World, target: map<Serial, Config>)
    ensures LanSofar(w, w, target, {})
  {}

  lemma Present(w: World, n: World, target: map<Serial, Config>, done: set<Serial>, s: Serial)
    requires LanSofar(w, n, target, done) && LanOk(w) && LanOk(n) && s in w.configs && s !in done
    ensures Enabled(n, Removes(s))
  {
    assert Untouched(w, n, s);
  }
}
