/** sync_printers: bringing the running service to a new printer list. */
module HotReload {
  import opened Prelude
  import opened PrinterService
  import opened Reconciliation

  // ---------------------------------------------------------------------
  // What the new list asks for.

  function BySerial(list: seq<Config>): map<Serial, Config>
    decreases list
  {
    if list == [] then map[] else BySerial(list[..|list| - 1])[list[|list| - 1].serial := list[|list| - 1]]
  }

  /** The target holds the listed serials, each with the last configuration listed for it. */
  lemma {:induction false} LastEntryWins(list: seq<Config>, s: Serial)
    ensures s in BySerial(list) <==> exists i :: 0 <= i < |list| && list[i].serial == s
    ensures s in BySerial(list) ==>
      exists i :: 0 <= i < |list| && list[i].serial == s && BySerial(list)[s] == list[i]
        && forall j | i < j < |list| :: list[j].serial != s
    decreases list
  {
    if list != [] {
      var init, last := list[..|list| - 1], list[|list| - 1];
      LastEntryWins(init, s);
      if last.serial == s {
        assert list[|list| - 1].serial == s;
      } else if s in BySerial(init) {
        var i :| 0 <= i < |init| && init[i].serial == s && BySerial(init)[s] == init[i]
          && forall j | i < j < |init| :: init[j].serial != s;
        assert list[i] == init[i] && forall j | i < j < |list| :: list[j].serial != s;
      }
    }
  }

  function RelayOf(w: World, s: Serial): Option<Relay> {
    if w.relays.Some? then Lookup(w.relays.value, s) else None
  }

  // Nothing registered for s changed.
  predicate Untouched(w: World, n: World, s: Serial) {
    && Lookup(w.configs, s) == Lookup(n.configs, s)
    && Lookup(w.clients, s) == Lookup(n.clients, s)
    && Lookup(w.proxies, s) == Lookup(n.proxies, s)
    && Lookup(w.brokers, s) == Lookup(n.brokers, s)
    && RelayOf(w, s) == RelayOf(n, s)
  }

  predicate Grown(w: World, n: World) {
    && |w.conns| <= |n.conns| && |w.feeds| <= |n.feeds| && w.cameras <= n.cameras && w.relayCount <= n.relayCount
    && w.stopped <= n.stopped && w.closed <= n.closed
    && (w.relays.Some? <==> n.relays.Some?)
  }

  // A step that concerns s only.
  ghost predicate Touches(w: World, n: World, s: Serial) {
    Grown(w, n) && forall t: Serial | t != s :: Untouched(w, n, t)
  }

  predicate Unchanged(before: map<Serial, Config>, target: map<Serial, Config>, s: Serial)
    requires s in target
  {
    s in before && SameAddress(before[s], target[s])
  }

  // What reconciliation owes s outside cloud mode.
  predicate LanSettled(w: World, n: World, target: map<Serial, Config>, s: Serial) {
    if s !in target then s !in n.configs && s !in n.clients && s !in n.brokers && s !in n.proxies
    else
      && s in n.configs && n.configs[s] == target[s] && s in n.clients && s in n.brokers
      && (if s in w.brokers then n.brokers[s] == w.brokers[s] else n.brokers[s] >= |w.feeds|)
      && if Unchanged(w.configs, target, s)
        then Lookup(n.clients, s) == Lookup(w.clients, s) && Lookup(n.proxies, s) == Lookup(w.proxies, s)
         else n.clients[s] >= |w.conns| && s !in n.proxies
  }

  // What it owes s in cloud mode, with the LAN policy's answer.
  predicate CloudSettled(before: map<Serial, Config>, w: World, n: World, target: map<Serial, Config>, lan: bool,
                         s: Serial) {
    && Lookup(n.configs, s) == Lookup(w.configs, s)
    && (if s in w.clients && Lookup(n.clients, s) != Lookup(w.clients, s) then s !in n.proxies
        else Lookup(n.proxies, s) == Lookup(w.proxies, s))
    && if s !in target then s !in n.clients && s !in n.brokers && RelayOf(n, s) == None
       else if lan then
         && s in n.clients && s in n.brokers && RelayOf(n, s) == None
         && (if s in w.clients && Unchanged(before, target, s) then n.clients[s] == w.clients[s]
           else n.clients[s] >= |w.conns|)
       else
         && s !in n.clients
         && (w.relays.Some? ==>
              && s in n.brokers && RelayOf(n, s).Some?
              && RelayOf(n, s).value.name == Display(target[s])
              && (if RelayOf(w, s).Some? then RelayOf(n, s).value.id == RelayOf(w, s).value.id
                else RelayOf(n, s).value.id >= w.relayCount))
  }

  ghost predicate LanSofar(w: World, n: World, target: map<Serial, Config>, done: set<Serial>) {
    && Grown(w, n)
    && (forall s: Serial | s in done :: LanSettled(w, n, target, s))
    && (forall s: Serial | s !in done :: Untouched(w, n, s))
  }

  lemma {:induction false} LanAdvances(w: World, n: World, m: World, target: map<Serial, Config>, done: set<Serial>,
                                       s: Serial)
    requires LanSofar(w, n, target, done) && Touches(n, m, s) && LanSettled(w, m, target, s)
    ensures LanSofar(w, m, target, done + {s})
  {
    hide SameAddress, RelayOf;
    forall t: Serial | t in done + {s}
      ensures LanSettled(w, m, target, t)
    {
      if t != s {
        assert LanSettled(w, n, target, t) && Untouched(n, m, t);
      }
    }
    forall t: Serial | t !in done + {s}
      ensures Untouched(w, m, t)
    {
      assert Untouched(w, n, t) && Untouched(n, m, t);
    }
  }

  lemma {:induction false} RetireTouches(w: World, s: Serial)
    requires InRange(w)
    ensures Touches(w, Retire(w, s), s) && Retire(w, s).clients == w.clients - {s}
    ensures Retire(w, s) == w.(clients := Retire(w, s).clients, conns := Retire(w, s).conns,
                               stopped := Retire(w, s).stopped)
    ensures |Retire(w, s).conns| == |w.conns|
  {}

  lemma {:induction false} EnlistedTouches(w: World, n: World, s: Serial, cfg: Config)
    requires Enlisted(w, n, s, cfg)
    ensures Touches(w, n, s)
  {
    EnlistedProxies(w, n, s, cfg);
    hide Enlisted;
  }

  lemma {:induction false} CloseTouches(w: World, s: Serial)
    ensures Touches(w, CloseProxy(w, s), s) && s !in CloseProxy(w, s).proxies
    ensures CloseProxy(w, s) == w.(proxies := CloseProxy(w, s).proxies, closed := CloseProxy(w, s).closed)
  {}

  lemma {:induction false} TouchesTwice(a: World, b: World, c: World, s: Serial)
    requires Touches(a, b, s) && Touches(b, c, s)
    ensures Touches(a, c, s)
  {
    forall t: Serial | t != s
      ensures Untouched(a, c, t)
    {
      assert Untouched(a, b, t) && Untouched(b, c, t);
    }
  }

  lemma {:induction false} ConfigTouches(w: World, s: Serial, cfg: Config)
    ensures Touches(w, w.(configs := w.configs[s := cfg]), s)
  {}

  lemma {:induction false} RenameTouches(w: World, s: Serial, cfg: Config)
    requires InRange(w) && s in w.clients
    ensures Touches(w, Rename(w, s, cfg), s)
    ensures Rename(w, s, cfg) == w.(conns := Rename(w, s, cfg).conns) && |Rename(w, s, cfg).conns| == |w.conns|
  {}

  lemma UnconfigureTouches(w: World, s: Serial)
    ensures Touches(w, w.(configs := w.configs - {s}, brokers := w.brokers - {s}), s)
  {}

  lemma {:induction false} RemoveTouches(w: World, s: Serial)
    requires InRange(w)
    ensures Touches(w, Remove(w, s), s)
    ensures var n := Remove(w, s); s !in n.configs && s !in n.clients && s !in n.brokers && s !in n.proxies
  {
    hide Touches, InRange, Retire, CloseProxy;
    RetireTouches(w, s);
    var w1 := Retire(w, s);
    var w2 := w1.(configs := w1.configs - {s}, brokers := w1.brokers - {s});
    UnconfigureTouches(w1, s);
    CloseTouches(w2, s);
    TouchesTwice(w, w1, w2, s);
    TouchesTwice(w, w2, CloseProxy(w2, s), s);
  }

  // Retiring the client of s, if any, and enlisting a new one.
  lemma {:induction false} ReplaceTouches(w: World, s: Serial, cfg: Config)
    requires WorldOk(w) && InRange(w) && !HasRelay(w, s)
    ensures InRange(Retire(w, s))
    ensures var n := CloseProxy(Enlist(Retire(w, s), s, cfg), s);
            && Touches(w, n, s) && s in n.clients && n.clients[s] == |w.conns| && s !in n.proxies
            && n.brokers == (if s in w.brokers then w.brokers else w.brokers[s := |w.feeds|])
            && n.configs == w.configs && n.relays == w.relays
  {
    hide WorldOk, InRange, Retire, Enlist, CloseProxy, Touches, Enlisted;
    ReplaceKeeps(w, s, cfg);
    RetireTouches(w, s);
    var w1 := Retire(w, s);
    var w2 := Enlist(w1, s, cfg);
    EnlistedTouches(w1, w2, s, cfg);
    EnlistedProxies(w1, w2, s, cfg);
    CloseTouches(w2, s);
    TouchesTwice(w, w1, w2, s);
    TouchesTwice(w, w2, CloseProxy(w2, s), s);
  }

  lemma {:induction false} RefreshTouches(w: World, cfg: Config)
    requires WorldOk(w) && InRange(w) && Enabled(w, Refreshes(cfg)) && w.relays.None?
    ensures var n, s := Refresh(w, cfg), cfg.serial;
            && Touches(w, n, s) && n.configs == w.configs[s := cfg] && s in n.clients && n.relays == w.relays
            && (s in w.brokers ==> n.brokers == w.brokers)
            && if SameAddress(w.configs[s], cfg) then n.clients == w.clients && n.proxies == w.proxies
               else n.clients[s] == |w.conns| && s !in n.proxies
  {
    hide WorldOk, InRange, Retire, Enlist, CloseProxy, Touches, Rename, SameAddress;
    var s := cfg.serial;
    var w1 := w.(configs := w.configs[s := cfg]);
    ConfigTouches(w, s, cfg);
    ConfigsKeep(w, w1.configs);
    OkInRange(w1);
    if !SameAddress(w.configs[s], cfg) {
      ReplaceTouches(w1, s, cfg);
      TouchesTwice(w, w1, Refresh(w, cfg), s);
    } else if w.configs[s].name != cfg.name {
      RenameTouches(w1, s, cfg);
      TouchesTwice(w, w1, Rename(w1, s, cfg), s);
    }
  }

  lemma {:induction false} AddTouches(w: World, cfg: Config)
    requires WorldOk(w) && InRange(w) && Enabled(w, Adds(cfg))
    ensures var n, s := Add(w, cfg), cfg.serial;
            && Touches(w, n, s) && n.configs == w.configs[s := cfg] && s in n.clients && n.clients[s] == |w.conns|
            && n.brokers == (if s in w.brokers then w.brokers else w.brokers[s := |w.feeds|])
            && n.proxies == w.proxies
  {
    hide WorldOk, InRange, Enlist, Touches, Enlisted;
    var s := cfg.serial;
    var w1 := w.(configs := w.configs[s := cfg]);
    ConfigTouches(w, s, cfg);
    ConfigsKeep(w, w1.configs);
    EnlistOk(w1, s, cfg);
    EnlistedTouches(w1, Enlist(w1, s, cfg), s, cfg);
    EnlistedProxies(w1, Enlist(w1, s, cfg), s, cfg);
    TouchesTwice(w, w1, Enlist(w1, s, cfg), s);
  }

  // -- Progress of the three loops outside cloud mode

  lemma {:induction false} RemoveAdvances(w: World, n: World, target: map<Serial, Config>, done: set<Serial>, s: Serial)
    requires LanSofar(w, n, target, done) && InRange(n) && s !in target
    ensures LanSofar(w, Remove(n, s), target, done + {s})
  {
    hide InRange, Remove, LanSofar, Touches;
    RemoveTouches(n, s);
    LanAdvances(w, n, Remove(n, s), target, done, s);
  }

  lemma {:induction false} RefreshAdvances(w: World, n: World, target: map<Serial, Config>, done: set<Serial>,
                                           s: Serial)
    requires LanSofar(w, n, target, done) && LanOk(w) && LanOk(n) && WorldOk(n) && InRange(n)
    requires s !in done && s in target && target[s].serial == s && s in w.configs
    ensures Enabled(n, Refreshes(target[s])) && LanSofar(w, Refresh(n, target[s]), target, done + {s})
  {
    hide InRange, WorldOk, Refresh, Dials, SameAddress;
    assert Untouched(w, n, s);
    RefreshTouches(n, target[s]);
    LanAdvances(w, n, Refresh(n, target[s]), target, done, s);
  }

  lemma {:induction false} AddAdvances(w: World, n: World, target: map<Serial, Config>, done: set<Serial>, s: Serial)
    requires LanSofar(w, n, target, done) && LanOk(w) && LanOk(n) && WorldOk(n) && InRange(n)
    requires s !in done && s in target && target[s].serial == s && s !in w.configs
    ensures Enabled(n, Adds(target[s])) && LanSofar(w, Add(n, target[s]), target, done + {s})
  {
    hide InRange, WorldOk, Add, Dials, SameAddress;
    assert Untouched(w, n, s);
    AddTouches(n, target[s]);
    LanAdvances(w, n, Add(n, target[s]), target, done, s);
  }

  // -- Progress in cloud mode

  lemma {:induction false} DropTouches(w: World, s: Serial)
    requires InRange(w)
    ensures var n := DropLan(w, s);
            && Touches(w, n, s) && n.clients == w.clients - {s} && n.configs == w.configs && n.brokers == w.brokers
            && n.relays == w.relays && n.relayCount == w.relayCount && |n.feeds| == |w.feeds|
            && if s in w.clients then s !in n.proxies else n == w
  {
    hide InRange, Retire, CloseProxy, Touches;
    if s in w.clients {
      RetireTouches(w, s);
      CloseTouches(Retire(w, s), s);
      TouchesTwice(w, Retire(w, s), DropLan(w, s), s);
    } else {
      assert w.clients - {s} == w.clients;
      StaysTouches(w, s);
    }
  }

  lemma StaysTouches(w: World, s: Serial)
    ensures Touches(w, w, s)
  {}

  lemma {:induction false} WithoutRelayTouches(w: World, s: Serial)
    ensures var n := WithoutRelay(w, s);
            Touches(w, n, s) && n == w.(relays := n.relays) && RelayOf(n, s) == None && !HasRelay(n, s)
  {}

  lemma {:induction false} UnleasedTouches(w: World, n: World, s: Serial)
    requires Unleased(w, n, s)
    ensures Touches(w, n, s) && n.clients == w.clients && n.proxies == w.proxies && n.configs == w.configs
    ensures n.relays == w.relays && n.relayCount == w.relayCount
  {
    hide SameFaces, HasAddress;
  }

  lemma {:induction false} RelayTouches(w: World, s: Serial, relay: Relay, count: nat)
    requires w.relays.Some? && count >= w.relayCount
    ensures var n := w.(relays := Some(w.relays.value[s := relay]), relayCount := count);
            Touches(w, n, s) && RelayOf(n, s) == Some(relay)
  {}

  lemma {:induction false} ForgetSettles(before: map<Serial, Config>, w: World, n: World, target: map<Serial, Config>,
                                         lan: bool, s: Serial)
    requires Untouched(w, n, s) && InRange(n) && s !in target
    ensures Touches(n, Forget(n, s), s) && CloudSettled(before, w, Forget(n, s), target, lan, s)
  {
    hide InRange, DropLan, Touches, WithoutRelay;
    DropTouches(n, s);
    var n1 := DropLan(n, s);
    WithoutRelayTouches(n1, s);
    var n2 := WithoutRelay(n1, s);
    var n3 := n2.(brokers := n2.brokers - {s});
    UnlistTouches(n2, s);
    TouchesTwice(n, n1, n2, s);
    TouchesTwice(n, n2, n3, s);
  }

  lemma UnlistTouches(w: World, s: Serial)
    ensures Touches(w, w.(brokers := w.brokers - {s}), s)
  {}

  lemma {:induction false} RelayEffect(w: World, cfg: Config)
    requires WorldOk(w) && InRange(w)
    ensures var n, s := EnsureRelay(w, cfg), cfg.serial;
            && Touches(w, n, s) && n.configs == w.configs && n.clients == w.clients - {s}
            && (if s in w.clients then s !in n.proxies else n.proxies == w.proxies)
            && (w.relays.Some? ==>
                  && s in n.brokers && RelayOf(n, s).Some?
                  && RelayOf(n, s).value.name == Display(cfg)
                  && RelayOf(n, s).value.id == if RelayOf(w, s).Some? then RelayOf(w, s).value.id else w.relayCount)
  {
    hide InRange, WorldOk, DropLan, Touches, Wire, Display, Unleased;
    var s := cfg.serial;
    DropTouches(w, s);
    DropLanKeeps(w, s);
    var n1 := DropLan(w, s);
    if n1.relays.Some? {
      UnleaseKeeps(n1, s);
      var n2 := Wire(n1, s, None);
      UnleasedTouches(n1, n2, s);
      UnleasedHasBroker(n1, n2, s);
      TouchesTwice(w, n1, n2, s);
      if s in n1.relays.value {
        RelayTouches(n2, s, n1.relays.value[s].(name := Display(cfg)), n2.relayCount);
      } else {
        RelayTouches(n2, s, Relay(n1.relayCount, Display(cfg)), n1.relayCount + 1);
      }
      TouchesTwice(w, n2, EnsureRelay(w, cfg), s);
    }
  }

  lemma {:induction false} RelaySettles(before: map<Serial, Config>, w: World, n: World, target: map<Serial, Config>,
                                        s: Serial)
    requires Untouched(w, n, s) && Grown(w, n) && WorldOk(n) && InRange(n) && s in target && target[s].serial == s
    ensures Touches(n, EnsureRelay(n, target[s]), s)
    ensures CloudSettled(before, w, EnsureRelay(n, target[s]), target, false, s)
  {
    hide InRange, WorldOk, EnsureRelay, Touches, Display;
    RelayEffect(n, target[s]);
  }

  lemma UnleasedHasBroker(w: World, n: World, s: Serial)
    requires Unleased(w, n, s)
    ensures s in n.brokers
  {}

  lemma {:induction false} LanSettles(before: map<Serial, Config>, w: World, n: World, target: map<Serial, Config>,
                                      s: Serial)
    requires Untouched(w, n, s) && Grown(w, n) && WorldOk(n) && InRange(n) && s in target && target[s].serial == s
    ensures var m := Route(n, target[s], true, Lookup(before, s));
            Touches(n, m, s) && CloudSettled(before, w, m, target, true, s)
  {
    hide InRange, WorldOk, Touches, Display, WithoutRelay, CloseProxy, Enlist, Retire, Rename, SameAddress, Enlisted;
    var cfg := target[s];
    WithoutRelayTouches(n, s);
    WithoutRelayKeeps(n, s);
    var n1 := WithoutRelay(n, s);
    OkInRange(n1);
    var was := Lookup(before, s);
    var m := EnsureLan(n1, cfg, was);
    if s !in n1.clients {
      EnlistOk(n1, s, cfg);
      EnlistedTouches(n1, m, s, cfg);
      EnlistedProxies(n1, m, s, cfg);
    } else if was.None? || !SameAddress(was.value, cfg) {
      ReplaceTouches(n1, s, cfg);
    } else if was.value.name != cfg.name {
      RegisteredHasBroker(n1, s);
      RenameTouches(n1, s, cfg);
    } else {
      RegisteredHasBroker(n1, s);
      StaysTouches(n1, s);
    }
    TouchesTwice(n, n1, m, s);
  }

  lemma RegisteredHasBroker(w: World, s: Serial)
    requires WorldOk(w) && s in w.clients
    ensures s in w.brokers
  {}
}
