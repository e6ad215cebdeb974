/** The printer registry: reconciling it with a new configuration, and the connection leases it moves. */
module PrinterService {
  import opened Prelude

  type Serial = string
  type ClientId = nat
  type BrokerId = nat
  type ProxyId = nat

  datatype Config = Config(serial: Serial, ip: string, accessCode: string, name: string)

  predicate SameAddress(a: Config, b: Config) {
    a.ip == b.ip && a.accessCode == b.accessCode
  }

  predicate HasAddress(cfg: Config) {
    cfg.ip != "" && cfg.accessCode != ""
  }

  function Display(cfg: Config): string {
    if cfg.name != "" then cfg.name
    else "Printer " + cfg.serial[if |cfg.serial| >= 4 then |cfg.serial| - 4 else 0..]
  }

  // ---------------------------------------------------------------------
  // A LAN client's connection.

  // session: it holds an MQTT session. timer: the idle disconnect is armed. wiredTo: the broker it reports to.
  datatype Connection = Connection(config: Config, shown: string, session: bool, leases: nat, timer: bool,
                                   wiredTo: BrokerId)

  function Schedule(c: Connection): Connection {
    c.(timer := c.session && c.leases == 0)
  }

  function EnsureConnected(c: Connection): Connection {
    Schedule(c.(session := true))
  }

  function Acquire(c: Connection): Connection {
    EnsureConnected(c.(leases := c.leases + 1, timer := false))
  }

  function Release(c: Connection): Connection {
    var n := if c.leases > 0 then c.leases - 1 else 0;
    if n == 0 then Schedule(c.(leases := n)) else c.(leases := n)
  }

  function Stop(c: Connection): Connection {
    c.(timer := false, session := false)
  }

  // An armed idle timer means a session that nobody leases.
  predicate Armed(c: Connection) {
    c.timer ==> c.session && c.leases == 0
  }

  function Acquired(c: Connection, n: nat): Connection
    decreases n
  {
    if n == 0 then c else Acquire(Acquired(c, n - 1))
  }

  function Released(c: Connection, n: nat): Connection
    decreases n
  {
    if n == 0 then c else Release(Released(c, n - 1))
  }

  lemma {:induction false} AcquiredLeases(c: Connection, n: nat)
    requires Armed(c)
    ensures var d := Acquired(c, n);
            Armed(d) && d.leases == c.leases + n && d.wiredTo == c.wiredTo && d.config == c.config && d.shown == c.shown
    decreases n
  {
    if n > 0 {
      AcquiredLeases(c, n - 1);
    }
  }

  lemma {:induction false} ReleasedLeases(c: Connection, n: nat)
    requires Armed(c) && n <= c.leases
    ensures var d := Released(c, n);
            Armed(d) && d.leases == c.leases - n && d.wiredTo == c.wiredTo && d.config == c.config && d.shown == c.shown
    decreases n
  {
    if n > 0 {
      ReleasedLeases(c, n - 1);
    }
  }

  /** A LAN client's object, its timer and leases guarded by one lock. */
  class BambuMqttClient {
    const config: Config
    const wiredTo: BrokerId
    var shown: string
    var session: bool
    var leases: nat
    var timer: bool

    function State(): Connection
      reads this
    {
      Connection(config, shown, session, leases, timer, wiredTo)
    }

    constructor (config: Config, wiredTo: BrokerId)
      ensures State() == Connection(config, Display(config), false, 0, false, wiredTo)
    {
      this.config, this.wiredTo := config, wiredTo;
      shown, session, leases, timer := Display(config), false, 0, false;
    }

    method CancelDisconnectTimer()
      modifies this`timer
      ensures !timer
    {
      if timer {
        timer := false;
      }
    }

    method ScheduleDisconnect()
      modifies this`timer
      ensures State() == Schedule(old(State()))
    {
      CancelDisconnectTimer();
      if !session || leases != 0 {
        return;
      }
      timer := true;
    }

    method Connect()
      modifies this
      ensures State() == EnsureConnected(old(State()))
    {
      session := true;
      ScheduleDisconnect();
    }

    method AcquireConnectionLease()
      modifies this
      ensures State() == Acquire(old(State()))
    {
      leases := leases + 1;
      CancelDisconnectTimer();
      Connect();
    }

    method ReleaseConnectionLease()
      modifies this
      ensures State() == Release(old(State()))
    {
      leases := if leases > 0 then leases - 1 else 0;
      if leases == 0 {
        ScheduleDisconnect();
      }
    }

    method Disconnect()
      modifies this
      ensures State() == Stop(old(State()))
    {
      CancelDisconnectTimer();
      session := false;
    }
  }

  /** Moves the leases of n subscribers from a replaced client to its successor: all of them, and no others. */
  method TransferLeases(from: BambuMqttClient, to: BambuMqttClient, n: nat)
    requires from != to && Armed(from.State()) && Armed(to.State()) && n == from.leases
    modifies from, to
    ensures from.leases == 0 && to.leases == old(to.leases) + n
    ensures Armed(from.State()) && Armed(to.State())
    ensures from.State() == Released(old(from.State()), n) && to.State() == Acquired(old(to.State()), n)
  {
    for i := 0 to n
      invariant from.State() == Released(old(from.State()), i) && to.State() == old(to.State())
    {
      from.ReleaseConnectionLease();
    }
    for i := 0 to n
      invariant from.State() == Released(old(from.State()), n) && to.State() == Acquired(old(to.State()), i)
    {
      to.AcquireConnectionLease();
    }
    ReleasedLeases(old(from.State()), n);
    AcquiredLeases(old(to.State()), n);
  }

  // ---------------------------------------------------------------------
  // The registry, with every client, broker and camera proxy ever created.

  datatype Broker = Broker(subscribers: nat, lease: Option<ClientId>, fileAvailable: bool)

  datatype Relay = Relay(id: nat, name: string)

  datatype Proxy = Proxy(ip: string, accessCode: string)

  // stopped and closed log the clients and proxies that reconciliation stopped.
  datatype World = World(
    configs: map<Serial, Config>,
    clients: map<Serial, ClientId>,
    relays: Option<map<Serial, Relay>>,
    proxies: map<Serial, ProxyId>,
    brokers: map<Serial, BrokerId>,
    conns: seq<Connection>,
    feeds: seq<Broker>,
    cameras: seq<Proxy>,
    relayCount: nat,
    stopped: seq<ClientId>,
    closed: seq<ProxyId>
  )

  // Every number stored in a registry names something created.
  predicate InRange(w: World) {
    && (forall s | s in w.clients :: w.clients[s] < |w.conns|)
    && (forall s | s in w.brokers :: w.brokers[s] < |w.feeds|)
    && (forall s | s in w.proxies :: w.proxies[s] < |w.cameras|)
    && (forall b | 0 <= b < |w.feeds| && w.feeds[b].lease.Some? :: w.feeds[b].lease.value < |w.conns|)
  }

  function Retire(w: World, s: Serial): World
    requires InRange(w)
  {
    if s !in w.clients then w
    else
      var c := w.clients[s];
      w.(conns := w.conns[c := Stop(w.conns[c])], clients := w.clients - {s}, stopped := w.stopped + [c])
  }

  function CloseProxy(w: World, s: Serial): World {
    if s !in w.proxies then w
    else w.(proxies := w.proxies - {s}, closed := w.closed + [w.proxies[s]])
  }

  function WithBroker(w: World, s: Serial): World {
    if s in w.brokers then w
    else w.(brokers := w.brokers[s := |w.feeds|], feeds := w.feeds + [Broker(0, None, true)])
  }

  // Moves every outstanding lease of a broker from its old client to the new one.
  function SetLease(w: World, b: BrokerId, lease: Option<ClientId>): World
    requires InRange(w) && b < |w.feeds| && (lease.Some? ==> lease.value < |w.conns|)
  {
    var before := w.feeds[b].lease;
    var n := w.feeds[b].subscribers;
    var w1 := w.(feeds := w.feeds[b := w.feeds[b].(lease := lease)]);
    if before == lease then w1
    else
      var w2 := if before.Some? then w1.(conns := w1.conns[before.value := Released(w1.conns[before.value], n)])
        else w1;
      if lease.Some? then w2.(conns := w2.conns[lease.value := Acquired(w2.conns[lease.value], n)]) else w2
  }

  function SetFileFlag(w: World, s: Serial): World
    requires InRange(w) && s in w.brokers
  {
    var b := w.brokers[s];
    w.(feeds := w.feeds[b := w.feeds[b].(fileAvailable := s in w.configs && HasAddress(w.configs[s]))])
  }

  function Wire(w: World, s: Serial, lease: Option<ClientId>): World
    requires InRange(w) && (lease.Some? ==> lease.value < |w.conns|)
  {
    var w1 := SetFileFlag(WithBroker(w, s), s);
    SetLease(w1, w1.brokers[s], lease)
  }

  // A new LAN client for s.
  function Enlist(w: World, s: Serial, cfg: Config): World
    requires InRange(w)
  {
    var w1 := WithBroker(w, s);
    var c := |w.conns|;
    var w2 := Wire(w1.(conns := w1.conns + [Connection(cfg, Display(cfg), false, 0, false, w1.brokers[s])]), s,
                   Some(c));
    w2.(clients := w2.clients[s := c])
  }

  // -- LAN mode

  function Remove(w: World, s: Serial): World
    requires InRange(w)
  {
    var w1 := Retire(w, s);
    CloseProxy(w1.(configs := w1.configs - {s}, brokers := w1.brokers - {s}), s)
  }

  function Rename(w: World, s: Serial, cfg: Config): World
    requires InRange(w) && s in w.clients
  {
    var c := w.clients[s];
    w.(conns := w.conns[c := w.conns[c].(shown := Display(cfg))])
  }

  function Refresh(w: World, cfg: Config): World
    requires InRange(w) && cfg.serial in w.configs && cfg.serial in w.clients
  {
    var s := cfg.serial;
    var before := w.configs[s];
    var w1 := w.(configs := w.configs[s := cfg]);
    if !SameAddress(before, cfg) then CloseProxy(Enlist(Retire(w1, s), s, cfg), s)
    else if before.name != cfg.name then Rename(w1, s, cfg)
    else w1
  }

  function Add(w: World, cfg: Config): World
    requires InRange(w)
  {
    Enlist(w.(configs := w.configs[cfg.serial := cfg]), cfg.serial, cfg)
  }

  // -- Cloud mode

  function DropLan(w: World, s: Serial): World
    requires InRange(w)
  {
    if s in w.clients then CloseProxy(Retire(w, s), s) else w
  }

  function WithoutRelay(w: World, s: Serial): World {
    if w.relays.Some? then w.(relays := Some(w.relays.value - {s})) else w
  }

  function Forget(w: World, s: Serial): World
    requires InRange(w)
  {
    var w1 := WithoutRelay(DropLan(w, s), s);
    w1.(brokers := w1.brokers - {s})
  }

  function EnsureLan(w: World, cfg: Config, before: Option<Config>): World
    requires InRange(w)
  {
    var s := cfg.serial;
    if s !in w.clients then Enlist(w, s, cfg)
    else if before.None? || !SameAddress(before.value, cfg) then CloseProxy(Enlist(Retire(w, s), s, cfg), s)
    else if before.value.name != cfg.name then Rename(w, s, cfg)
    else w
  }

  function EnsureRelay(w: World, cfg: Config): World
    requires InRange(w)
  {
    var s := cfg.serial;
    var w1 := DropLan(w, s);
    if w1.relays.None? then w1
    else
      var w2 := Wire(w1, s, None);
      if s in w1.relays.value then w2.(relays := Some(w1.relays.value[s := w1.relays.value[s].(name := Display(cfg))]))
      else w2.(relays := Some(w1.relays.value[s := Relay(w1.relayCount, Display(cfg))]),
               relayCount := w1.relayCount + 1)
  }

  function Route(w: World, cfg: Config, lan: bool, before: Option<Config>): World
    requires InRange(w)
  {
    if lan then EnsureLan(WithoutRelay(w, cfg.serial), cfg, before) else EnsureRelay(w, cfg)
  }

  // -- Cameras

  function Watch(w: World, s: Serial, jpeg: bool): World {
    if s in w.proxies || s !in w.configs || !HasAddress(w.configs[s]) || !jpeg then w
    else w.(proxies := w.proxies[s := |w.cameras|],
            cameras := w.cameras + [Proxy(w.configs[s].ip, w.configs[s].accessCode)])
  }

  // ---------------------------------------------------------------------
  // Runs.

  datatype Step =
    | Subscribe(b: BrokerId)
    | Unsubscribe(b: BrokerId)
    | IdleFires(c: ClientId)
    | Uses(c: ClientId)
    | Hears(c: ClientId)
    | Watches(s: Serial, jpeg: bool)
    | Removes(s: Serial)
    | Refreshes(cfg: Config)
    | Adds(cfg: Config)
    | Configures(configs: map<Serial, Config>)
    | Forgets(s: Serial)
    | Routes(cfg: Config, lan: bool, before: Option<Config>)

  predicate HasRelay(w: World, s: Serial) {
    w.relays.Some? && s in w.relays.value
  }

  predicate Enabled(w: World, step: Step) {
    match step
    case Subscribe(b) => b < |w.feeds|
    case Unsubscribe(b) => b < |w.feeds| && w.feeds[b].subscribers > 0
    case IdleFires(c) => c < |w.conns| && w.conns[c].timer
    case Uses(c) => c < |w.conns|
    case Hears(c) => c < |w.conns|
    case Removes(s) => s in w.configs && s in w.clients
    case Refreshes(cfg) => cfg.serial in w.configs && cfg.serial in w.clients
    case Adds(cfg) => cfg.serial !in w.configs && cfg.serial !in w.clients && !HasRelay(w, cfg.serial)
    case _ => true
  }

  function OnLease(w: World, b: BrokerId, acquire: bool): World
    requires InRange(w) && b < |w.feeds|
  {
    if w.feeds[b].lease.None? then w
    else
      var c := w.feeds[b].lease.value;
      w.(conns := w.conns[c := if acquire then Acquire(w.conns[c]) else Release(w.conns[c])])
  }

  function Next(w: World, step: Step): World
    requires InRange(w) && Enabled(w, step)
  {
    match step
    case Subscribe(b) =>
      var w1 := OnLease(w, b, true);
      w1.(feeds := w1.feeds[b := w1.feeds[b].(subscribers := w1.feeds[b].subscribers + 1)])
    case Unsubscribe(b) =>
      OnLease(w.(feeds := w.feeds[b := w.feeds[b].(subscribers := w.feeds[b].subscribers - 1)]), b, false)
    case IdleFires(c) => w.(conns := w.conns[c := Stop(w.conns[c])])
    case Uses(c) => w.(conns := w.conns[c := EnsureConnected(w.conns[c])])
    case Hears(c) => w.(conns := w.conns[c := Schedule(w.conns[c])])
    case Watches(s, jpeg) => Watch(w, s, jpeg)
    case Removes(s) => Remove(w, s)
    case Refreshes(cfg) => Refresh(w, cfg)
    case Adds(cfg) => Add(w, cfg)
    case Configures(configs) => w.(configs := configs)
    case Forgets(s) => Forget(w, s)
    case Routes(cfg, lan, before) => Route(w, cfg, lan, before)
  }

  function Fresh(relays: Option<map<Serial, Relay>>): World {
    World(map[], map[], relays, map[], map[], [], [], [], 0, [], [])
  }

  ghost predicate CanRun(w: World, steps: seq<Step>)
    decreases steps
  {
    steps == [] || (InRange(w) && Enabled(w, steps[0]) && CanRun(Next(w, steps[0]), steps[1..]))
  }

  ghost function Run(w: World, steps: seq<Step>): World
    requires CanRun(w, steps)
    decreases steps
  {
    if steps == [] then w else Run(Next(w, steps[0]), steps[1..])
  }

  // ---------------------------------------------------------------------
  // Lease conservation.

  // What a client owes its broker: one lease for each subscriber, as long as it is the broker's client.
  function Owed(feeds: seq<Broker>, c: ClientId, b: BrokerId): nat
    requires b < |feeds|
  {
    if feeds[b].lease == Some(c) then feeds[b].subscribers else 0
  }

  ghost predicate Leased(conns: seq<Connection>, feeds: seq<Broker>) {
    && (forall c | 0 <= c < |conns| ::
          conns[c].wiredTo < |feeds| && Armed(conns[c]) && conns[c].leases == Owed(feeds, c, conns[c].wiredTo))
    && (forall b | 0 <= b < |feeds| && feeds[b].lease.Some? ::
          feeds[b].lease.value < |conns| && conns[feeds[b].lease.value].wiredTo == b)
  }

  // Every registered LAN client is leased by its printer's broker; a relayed printer leases none.
  ghost predicate Wired(clients: map<Serial, ClientId>, relays: Option<map<Serial, Relay>>,
                        brokers: map<Serial, BrokerId>, feeds: seq<Broker>) {
    && (forall s | s in brokers :: brokers[s] < |feeds|)
    && (forall s, t | s in brokers && t in brokers && brokers[s] == brokers[t] :: s == t)
    && (forall s | s in clients :: s in brokers && feeds[brokers[s]].lease == Some(clients[s]))
    && (relays.Some? ==> forall s | s in relays.value :: s in brokers && feeds[brokers[s]].lease == None)
  }

  // Everything created is either registered, under one serial, or was stopped, once.
  ghost predicate Accounted(registry: map<Serial, nat>, created: nat, retired: seq<nat>) {
    && Distinct(retired)
    && (forall c | c in retired :: c < created)
    && (forall s | s in registry :: registry[s] < created && registry[s] !in retired)
    && (forall s, t | s in registry && t in registry && registry[s] == registry[t] :: s == t)
    && (forall c: nat | c < created :: c in retired || exists s :: s in registry && registry[s] == c)
  }

  ghost predicate WorldOk(w: World) {
    && Leased(w.conns, w.feeds)
    && Wired(w.clients, w.relays, w.brokers, w.feeds)
    && Accounted(w.clients, |w.conns|, w.stopped)
    && Accounted(w.proxies, |w.cameras|, w.closed)
  }

  lemma OkInRange(w: World)
    requires WorldOk(w)
    ensures InRange(w)
  {}

  // What identifies a connection, leases and session aside.
  ghost predicate SameFaces(a: seq<Connection>, b: seq<Connection>) {
    && |a| == |b|
    && forall c | 0 <= c < |a| :: a[c].config == b[c].config && a[c].shown == b[c].shown && a[c].wiredTo == b[c].wiredTo
  }

  // n differs from w in connections and one broker only.
  ghost predicate Rewired(w: World, n: World, b: BrokerId, lease: Option<ClientId>) {
    && n == w.(conns := n.conns, feeds := n.feeds)
    && SameFaces(n.conns, w.conns)
    && b < |w.feeds| && n.feeds == w.feeds[b := w.feeds[b].(lease := lease)]
  }

  lemma {:induction false} GivingUpKeeps(conns: seq<Connection>, feeds: seq<Broker>, b: BrokerId)
    requires Leased(conns, feeds) && b < |feeds| && feeds[b].lease.Some?
    ensures var c := feeds[b].lease.value;
            && c < |conns|
            && SameFaces(conns[c := Released(conns[c], feeds[b].subscribers)], conns)
            && Leased(conns[c := Released(conns[c], feeds[b].subscribers)], feeds[b := feeds[b].(lease := None)])
  {
    hide Released, Armed;
    ReleasedLeases(conns[feeds[b].lease.value], feeds[b].subscribers);
  }

  lemma {:induction false} TakingOverKeeps(conns: seq<Connection>, feeds: seq<Broker>, b: BrokerId, c: ClientId)
    requires Leased(conns, feeds) && b < |feeds| && feeds[b].lease.None?
    requires c < |conns| && conns[c].wiredTo == b
    ensures SameFaces(conns[c := Acquired(conns[c], feeds[b].subscribers)], conns)
    ensures Leased(conns[c := Acquired(conns[c], feeds[b].subscribers)], feeds[b := feeds[b].(lease := Some(c))])
  {
    hide Acquired, Armed;
    AcquiredLeases(conns[c], feeds[b].subscribers);
  }

  lemma {:induction false} SetLeaseKeeps(w: World, b: BrokerId, lease: Option<ClientId>)
    requires InRange(w) && Leased(w.conns, w.feeds) && b < |w.feeds|
    requires lease.Some? ==> lease.value < |w.conns| && w.conns[lease.value].wiredTo == b
    ensures Rewired(w, SetLease(w, b, lease), b, lease)
    ensures Leased(SetLease(w, b, lease).conns, SetLease(w, b, lease).feeds)
  {
    hide Leased, Acquired, Released;
    var before := w.feeds[b].lease;
    if before == lease {
      assert w.feeds[b := w.feeds[b]] == w.feeds;
    } else {
      var conns, feeds := w.conns, w.feeds;
      if before.Some? {
        GivingUpKeeps(conns, feeds, b);
        conns := conns[before.value := Released(conns[before.value], feeds[b].subscribers)];
        feeds := feeds[b := feeds[b].(lease := None)];
      }
      assert feeds[b] == w.feeds[b].(lease := None);
      if lease.Some? {
        TakingOverKeeps(conns, feeds, b, lease.value);
        conns := conns[lease.value := Acquired(conns[lease.value], feeds[b].subscribers)];
        feeds := feeds[b := feeds[b].(lease := lease)];
      }
      assert feeds == w.feeds[b := w.feeds[b].(lease := lease)];
      assert SetLease(w, b, lease).conns == conns;
    }
  }

  // The registry after s got a new client.
  ghost predicate Enlisted(w: World, n: World, s: Serial, cfg: Config) {
    var c := |w.conns|;
    && n == w.(clients := w.clients[s := c], brokers := n.brokers, conns := n.conns, feeds := n.feeds)
    && n.brokers == (if s in w.brokers then w.brokers else w.brokers[s := |w.feeds|])
    && s in n.brokers && n.brokers[s] < |n.feeds|
    && |n.conns| == c + 1 && SameFaces(n.conns[..c], w.conns)
    && n.conns[c].config == cfg && n.conns[c].shown == Display(cfg)
    && |n.feeds| == (if s in w.brokers then |w.feeds| else |w.feeds| + 1)
    && (forall b | 0 <= b < |w.feeds| && b != n.brokers[s] :: n.feeds[b] == w.feeds[b])
    && n.feeds[n.brokers[s]].lease == Some(c)
    && n.feeds[n.brokers[s]].fileAvailable == (s in w.configs && HasAddress(w.configs[s]))
  }

  lemma {:induction false} WithBrokerKeeps(w: World, s: Serial)
    requires InRange(w) && Leased(w.conns, w.feeds)
    ensures InRange(WithBroker(w, s)) && Leased(WithBroker(w, s).conns, WithBroker(w, s).feeds)
  {
    hide Armed;
  }

  lemma {:induction false} FlagKeeps(w: World, s: Serial)
    requires InRange(w) && Leased(w.conns, w.feeds) && s in w.brokers
    ensures InRange(SetFileFlag(w, s)) && Leased(SetFileFlag(w, s).conns, SetFileFlag(w, s).feeds)
  {
    hide Armed, HasAddress;
  }

  lemma {:induction false} NewConnectionKeeps(w: World, c: Connection)
    requires InRange(w) && Leased(w.conns, w.feeds)
    requires c.wiredTo < |w.feeds| && c.leases == 0 && !c.timer
    ensures InRange(w.(conns := w.conns + [c])) && Leased(w.conns + [c], w.feeds)
  {}

  lemma {:induction false} EnlistKeeps(w: World, s: Serial, cfg: Config)
    requires InRange(w) && Leased(w.conns, w.feeds)
    ensures Enlisted(w, Enlist(w, s, cfg), s, cfg)
    ensures Leased(Enlist(w, s, cfg).conns, Enlist(w, s, cfg).feeds)
  {
    hide Leased, InRange, SetLease, HasAddress;
    var c := |w.conns|;
    WithBrokerKeeps(w, s);
    var w1 := WithBroker(w, s);
    BrokerInRange(w1, s);
    var conn := Connection(cfg, Display(cfg), false, 0, false, w1.brokers[s]);
    NewConnectionKeeps(w1, conn);
    var w2 := w1.(conns := w1.conns + [conn]);
    assert WithBroker(w2, s) == w2;
    FlagKeeps(w2, s);
    var w3 := SetFileFlag(w2, s);
    SetLeaseKeeps(w3, w3.brokers[s], Some(c));
    assert w2.conns[..c] == w.conns;
  }

  lemma BrokerInRange(w: World, s: Serial)
    requires InRange(w) && s in w.brokers
    ensures w.brokers[s] < |w.feeds|
  {}

  // -- Each change keeps the accounts.

  lemma {:induction false} RetireLeased(w: World, s: Serial)
    requires InRange(w) && Leased(w.conns, w.feeds)
    ensures Leased(Retire(w, s).conns, Retire(w, s).feeds)
  {}

  lemma {:induction false} RemovedAccounted(registry: map<Serial, nat>, created: nat, retired: seq<nat>, s: Serial)
    requires Accounted(registry, created, retired) && s in registry
    ensures Accounted(registry - {s}, created, retired + [registry[s]])
  {
    var c, shrunk := registry[s], registry - {s};
    forall d: nat | d < created
      ensures d in retired + [c] || exists t :: t in shrunk && shrunk[t] == d
    {
      if d !in retired {
        var t :| t in registry && registry[t] == d;
        if t != s {
          assert t in shrunk;
        }
      }
    }
  }

  lemma {:induction false} AddedAccounted(registry: map<Serial, nat>, created: nat, retired: seq<nat>, s: Serial)
    requires Accounted(registry, created, retired) && s !in registry
    ensures Accounted(registry[s := created], created + 1, retired)
  {
    var grown := registry[s := created];
    forall d: nat | d < created + 1
      ensures d in retired || exists t :: t in grown && grown[t] == d
    {
      if d == created {
        assert grown[s] == d;
      } else if d !in retired {
        var t :| t in registry && registry[t] == d;
        assert grown[t] == d;
      }
    }
  }

  lemma {:induction false} RetireKeeps(w: World, s: Serial)
    requires WorldOk(w)
    ensures WorldOk(Retire(w, s))
  {
    hide Leased, Accounted;
    OkInRange(w);
    RetireLeased(w, s);
    if s in w.clients {
      RemovedAccounted(w.clients, |w.conns|, w.stopped, s);
    }
  }

  lemma {:induction false} CloseProxyKeeps(w: World, s: Serial)
    requires WorldOk(w)
    ensures WorldOk(CloseProxy(w, s))
  {
    hide Leased, Wired, Accounted;
    if s in w.proxies {
      RemovedAccounted(w.proxies, |w.cameras|, w.closed, s);
    }
  }

  lemma {:induction false} EnlistedWired(w: World, n: World, s: Serial, cfg: Config)
    requires Enlisted(w, n, s, cfg) && s !in w.clients && !HasRelay(w, s)
    requires Wired(w.clients, w.relays, w.brokers, w.feeds)
    ensures Wired(n.clients, n.relays, n.brokers, n.feeds)
  {
    hide SameFaces, HasAddress, Display;
  }

  lemma {:induction false} EnlistOk(w: World, s: Serial, cfg: Config)
    requires WorldOk(w) && s !in w.clients && !HasRelay(w, s)
    ensures InRange(w) && WorldOk(Enlist(w, s, cfg)) && Enlisted(w, Enlist(w, s, cfg), s, cfg)
  {
    hide Leased, Accounted, Wired, Enlist, SameFaces, HasAddress;
    OkInRange(w);
    EnlistKeeps(w, s, cfg);
    EnlistedWired(w, Enlist(w, s, cfg), s, cfg);
    AddedAccounted(w.clients, |w.conns|, w.stopped, s);
  }

  lemma {:induction false} UnlistKeeps(w: World, s: Serial)
    requires WorldOk(w) && s !in w.clients && !HasRelay(w, s)
    ensures WorldOk(w.(brokers := w.brokers - {s}))
  {
    hide Leased, Accounted;
  }

  lemma {:induction false} WithoutRelayKeeps(w: World, s: Serial)
    requires WorldOk(w)
    ensures WorldOk(WithoutRelay(w, s))
  {
    hide Leased, Accounted;
  }

  lemma {:induction false} RenameKeeps(w: World, s: Serial, cfg: Config)
    requires WorldOk(w) && InRange(w) && s in w.clients
    ensures WorldOk(Rename(w, s, cfg))
  {
    hide Wired, Accounted;
  }

  // The registry after s was wired to a relay.
  ghost predicate Unleased(w: World, n: World, s: Serial) {
    && n == w.(brokers := n.brokers, conns := n.conns, feeds := n.feeds)
    && n.brokers == (if s in w.brokers then w.brokers else w.brokers[s := |w.feeds|])
    && s in n.brokers && n.brokers[s] < |n.feeds|
    && |n.conns| == |w.conns| && SameFaces(n.conns, w.conns)
    && |n.feeds| == (if s in w.brokers then |w.feeds| else |w.feeds| + 1)
    && (forall b | 0 <= b < |w.feeds| && b != n.brokers[s] :: n.feeds[b] == w.feeds[b])
    && n.feeds[n.brokers[s]].lease == None
    && n.feeds[n.brokers[s]].fileAvailable == (s in w.configs && HasAddress(w.configs[s]))
  }

  lemma {:induction false} WireKeeps(w: World, s: Serial)
    requires InRange(w) && Leased(w.conns, w.feeds)
    ensures Unleased(w, Wire(w, s, None), s)
    ensures Leased(Wire(w, s, None).conns, Wire(w, s, None).feeds)
  {
    hide Leased, InRange, SetLease, HasAddress;
    WithBrokerKeeps(w, s);
    var w1 := WithBroker(w, s);
    BrokerInRange(w1, s);
    FlagKeeps(w1, s);
    var w2 := SetFileFlag(w1, s);
    SetLeaseKeeps(w2, w2.brokers[s], None);
  }

  lemma {:induction false} UnleasedWired(w: World, n: World, s: Serial)
    requires Unleased(w, n, s) && s !in w.clients && Wired(w.clients, w.relays, w.brokers, w.feeds)
    ensures Wired(n.clients, n.relays, n.brokers, n.feeds)
  {
    hide SameFaces, HasAddress;
  }

  lemma {:induction false} UnleaseKeeps(w: World, s: Serial)
    requires WorldOk(w) && InRange(w) && s !in w.clients
    ensures WorldOk(Wire(w, s, None)) && Unleased(w, Wire(w, s, None), s)
  {
    hide Leased, Accounted, InRange, Wired, Wire, SameFaces, HasAddress;
    WireKeeps(w, s);
    UnleasedWired(w, Wire(w, s, None), s);
  }

  lemma {:induction false} RelayKeeps(w: World, s: Serial, relay: Relay, count: nat)
    requires WorldOk(w) && w.relays.Some?
    requires s in w.brokers && w.brokers[s] < |w.feeds| && w.feeds[w.brokers[s]].lease == None
    ensures WorldOk(w.(relays := Some(w.relays.value[s := relay]), relayCount := count))
  {
    hide Leased, Accounted;
  }

  lemma {:induction false} DropLanKeeps(w: World, s: Serial)
    requires WorldOk(w) && InRange(w)
    ensures WorldOk(DropLan(w, s)) && InRange(DropLan(w, s)) && DropLan(w, s).clients == w.clients - {s}
  {
    hide WorldOk, InRange;
    if s in w.clients {
      RetireKeeps(w, s);
      CloseProxyKeeps(Retire(w, s), s);
    }
    OkInRange(DropLan(w, s));
  }

  lemma {:induction false} EnsureRelayKeeps(w: World, cfg: Config)
    requires WorldOk(w) && InRange(w)
    ensures WorldOk(EnsureRelay(w, cfg))
  {
    hide WorldOk, InRange, DropLan, Wire, Display, SameFaces;
    var s := cfg.serial;
    DropLanKeeps(w, s);
    var w1 := DropLan(w, s);
    if w1.relays.Some? {
      UnleaseKeeps(w1, s);
      var w2 := Wire(w1, s, None);
      if s in w1.relays.value {
        RelayKeeps(w2, s, w1.relays.value[s].(name := Display(cfg)), w2.relayCount);
      } else {
        RelayKeeps(w2, s, Relay(w1.relayCount, Display(cfg)), w1.relayCount + 1);
      }
    }
  }

  lemma {:induction false} EnsureLanKeeps(w: World, cfg: Config, before: Option<Config>)
    requires WorldOk(w) && InRange(w) && !HasRelay(w, cfg.serial)
    ensures WorldOk(EnsureLan(w, cfg, before))
  {
    hide WorldOk, InRange, Enlist, Display, CloseProxy, Rename;
    var s := cfg.serial;
    if s !in w.clients {
      EnlistOk(w, s, cfg);
    } else if before.None? || !SameAddress(before.value, cfg) {
      ReplaceKeeps(w, s, cfg);
    } else if before.value.name != cfg.name {
      RenameKeeps(w, s, cfg);
    }
  }

  lemma {:induction false} ReplaceKeeps(w: World, s: Serial, cfg: Config)
    requires WorldOk(w) && InRange(w) && !HasRelay(w, s)
    ensures InRange(Retire(w, s)) && WorldOk(CloseProxy(Enlist(Retire(w, s), s, cfg), s))
    ensures Enlisted(Retire(w, s), Enlist(Retire(w, s), s, cfg), s, cfg)
  {
    hide WorldOk, InRange, Enlist, CloseProxy, Enlisted;
    RetireKeeps(w, s);
    OkInRange(Retire(w, s));
    EnlistOk(Retire(w, s), s, cfg);
    CloseProxyKeeps(Enlist(Retire(w, s), s, cfg), s);
  }

  lemma {:induction false} ConfigsKeep(w: World, configs: map<Serial, Config>)
    requires WorldOk(w)
    ensures WorldOk(w.(configs := configs))
  {
    hide Leased, Wired, Accounted;
  }

  // In LAN mode a registered client's printer is not relayed, so its broker has the lease.
  lemma {:induction false} ClientMeansNoRelay(w: World, s: Serial)
    requires WorldOk(w) && s in w.clients
    ensures !HasRelay(w, s)
  {
    hide Leased, Accounted;
  }

  lemma {:induction false} RemoveKeeps(w: World, s: Serial)
    requires WorldOk(w) && InRange(w) && s in w.clients
    ensures WorldOk(Remove(w, s))
  {
    hide WorldOk, InRange, CloseProxy;
    ClientMeansNoRelay(w, s);
    RetireKeeps(w, s);
    var w1 := Retire(w, s);
    ConfigsKeep(w1, w1.configs - {s});
    UnlistKeeps(w1.(configs := w1.configs - {s}), s);
    CloseProxyKeeps(w1.(configs := w1.configs - {s}, brokers := w1.brokers - {s}), s);
  }

  lemma {:induction false} RefreshKeeps(w: World, cfg: Config)
    requires WorldOk(w) && InRange(w) && Enabled(w, Refreshes(cfg))
    ensures WorldOk(Refresh(w, cfg))
  {
    hide WorldOk, InRange, CloseProxy, Enlist, Rename;
    var s := cfg.serial;
    ClientMeansNoRelay(w, s);
    var w1 := w.(configs := w.configs[s := cfg]);
    ConfigsKeep(w, w.configs[s := cfg]);
    OkInRange(w1);
    if !SameAddress(w.configs[s], cfg) {
      ReplaceKeeps(w1, s, cfg);
    } else if w.configs[s].name != cfg.name {
      RenameKeeps(w1, s, cfg);
    }
  }

  lemma {:induction false} ForgetKeeps(w: World, s: Serial)
    requires WorldOk(w) && InRange(w)
    ensures WorldOk(Forget(w, s))
  {
    hide WorldOk, InRange, DropLan;
    DropLanKeeps(w, s);
    WithoutRelayKeeps(DropLan(w, s), s);
    UnlistKeeps(WithoutRelay(DropLan(w, s), s), s);
  }

  lemma {:induction false} WatchKeeps(w: World, s: Serial, jpeg: bool)
    requires WorldOk(w)
    ensures WorldOk(Watch(w, s, jpeg))
  {
    hide Leased, Wired, Accounted, HasAddress;
    if Watch(w, s, jpeg) != w {
      AddedAccounted(w.proxies, |w.cameras|, w.closed, s);
    }
  }

  // A broker with another number of subscribers, its client's leases adjusted to match.
  lemma {:induction false} CountsLeased(conns: seq<Connection>, feeds: seq<Broker>, b: BrokerId, n: nat,
                                        changed: seq<Connection>)
    requires Leased(conns, feeds) && b < |feeds|
    requires match feeds[b].lease
             case None => changed == conns
             case Some(c) => exists conn: Connection ::
                 changed == conns[c := conn] && Armed(conn) && conn.leases == n && conn.wiredTo == b
    ensures Leased(changed, feeds[b := feeds[b].(subscribers := n)])
  {
    hide Armed;
  }

  lemma {:induction false} FeedsWired(w: World, n: World)
    requires Wired(w.clients, w.relays, w.brokers, w.feeds)
    requires n == w.(conns := n.conns, feeds := n.feeds) && |n.feeds| == |w.feeds|
    requires forall b | 0 <= b < |w.feeds| :: n.feeds[b].lease == w.feeds[b].lease
    ensures Wired(n.clients, n.relays, n.brokers, n.feeds)
  {}

  lemma {:induction false} SubscribeKeeps(w: World, b: BrokerId)
    requires WorldOk(w) && InRange(w) && b < |w.feeds|
    ensures WorldOk(Next(w, Subscribe(b)))
  {
    hide Accounted, Wired, Acquire, Armed;
    var n := Next(w, Subscribe(b));
    if w.feeds[b].lease.Some? {
      AcquireFacts(w.conns[w.feeds[b].lease.value]);
      assert n.conns == w.conns[w.feeds[b].lease.value := Acquire(w.conns[w.feeds[b].lease.value])];
    }
    CountsLeased(w.conns, w.feeds, b, w.feeds[b].subscribers + 1, n.conns);
    FeedsWired(w, n);
  }

  lemma {:induction false} UnsubscribeKeeps(w: World, b: BrokerId)
    requires WorldOk(w) && InRange(w) && Enabled(w, Unsubscribe(b))
    ensures WorldOk(Next(w, Unsubscribe(b)))
  {
    hide Accounted, Wired, Release, Armed;
    var n := Next(w, Unsubscribe(b));
    if w.feeds[b].lease.Some? {
      ReleaseFacts(w.conns[w.feeds[b].lease.value]);
      assert n.conns == w.conns[w.feeds[b].lease.value := Release(w.conns[w.feeds[b].lease.value])];
    }
    CountsLeased(w.conns, w.feeds, b, w.feeds[b].subscribers - 1, n.conns);
    FeedsWired(w, n);
  }

  lemma AcquireFacts(c: Connection)
    ensures Armed(Acquire(c)) && Acquire(c).leases == c.leases + 1 && Acquire(c).wiredTo == c.wiredTo
  {}

  lemma ReleaseFacts(c: Connection)
    requires Armed(c) && c.leases > 0
    ensures Armed(Release(c)) && Release(c).leases == c.leases - 1 && Release(c).wiredTo == c.wiredTo
  {}

  // A connection changed on its own, its leases kept.
  lemma {:induction false} ConnectionKeeps(w: World, c: ClientId, conn: Connection)
    requires WorldOk(w) && c < |w.conns|
    requires Armed(conn) && conn.leases == w.conns[c].leases && conn.wiredTo == w.conns[c].wiredTo
    ensures WorldOk(w.(conns := w.conns[c := conn]))
  {
    hide Wired, Accounted;
  }

  lemma {:induction false} StepKeeps(w: World, step: Step)
    requires WorldOk(w) && InRange(w) && Enabled(w, step)
    ensures WorldOk(Next(w, step))
  {
    hide Leased, Accounted, Remove, Refresh, Enlist, Forget, EnsureLan, EnsureRelay, Watch, InRange, OnLease;
    match step
    case Subscribe(b) => SubscribeKeeps(w, b);
    case Unsubscribe(b) => UnsubscribeKeeps(w, b);
    case IdleFires(c) => ConnectionKeeps(w, c, Stop(w.conns[c]));
    case Uses(c) => ConnectionKeeps(w, c, EnsureConnected(w.conns[c]));
    case Hears(c) => ConnectionKeeps(w, c, Schedule(w.conns[c]));
    case Watches(s, jpeg) => WatchKeeps(w, s, jpeg);
    case Removes(s) => RemoveKeeps(w, s);
    case Refreshes(cfg) => RefreshKeeps(w, cfg);
    case Adds(cfg) =>
      ConfigsKeep(w, w.configs[cfg.serial := cfg]);
      EnlistOk(w.(configs := w.configs[cfg.serial := cfg]), cfg.serial, cfg);
    case Configures(configs) => ConfigsKeep(w, configs);
    case Forgets(s) => ForgetKeeps(w, s);
    case Routes(cfg, lan, before) =>
      WithoutRelayKeeps(w, cfg.serial);
      OkInRange(WithoutRelay(w, cfg.serial));
      if lan {
        EnsureLanKeeps(WithoutRelay(w, cfg.serial), cfg, before);
      } else {
        EnsureRelayKeeps(w, cfg);
      }
  }

  lemma {:induction false} RunKeeps(w: World, steps: seq<Step>)
    requires WorldOk(w) && CanRun(w, steps)
    ensures WorldOk(Run(w, steps))
    decreases steps
  {
    hide WorldOk, Enabled, Next, InRange;
    if steps != [] {
      StepKeeps(w, steps[0]);
      RunKeeps(Next(w, steps[0]), steps[1..]);
    }
  }

  predicate NoRelaysYet(relays: Option<map<Serial, Relay>>) {
    relays.None? || relays.value == map[]
  }

  lemma FreshOk(relays: Option<map<Serial, Relay>>)
    requires NoRelaysYet(relays)
    ensures WorldOk(Fresh(relays))
  {}

  // The lease accounts of one client and one printer.
  ghost predicate Balanced(w: World, s: Serial, c: ClientId)
    requires c < |w.conns|
  {
    var conn := w.conns[c];
    && (s in w.clients && w.clients[s] == c ==>
          s in w.brokers && w.brokers[s] < |w.feeds| && conn.leases == w.feeds[w.brokers[s]].subscribers)
    && conn.wiredTo < |w.feeds|
    && (w.feeds[conn.wiredTo].lease != Some(c) ==> conn.leases == 0)
    && (conn.leases > 0 ==> !conn.timer)
    && !(s in w.clients && HasRelay(w, s))
  }

  /**
   * In every run of subscriptions, disconnect timers, traffic and reconciliations, in LAN and in cloud
   * mode: the registered client of a printer holds exactly one lease for each subscriber of the
   * printer's broker; a client the broker has moved on from holds none; no client with a lease has its
   * idle disconnect armed; and no printer is registered for LAN and for relay at once.
   */
  lemma {:induction false} LeasesAreConserved(relays: Option<map<Serial, Relay>>, steps: seq<Step>, s: Serial,
                                              c: ClientId)
    requires NoRelaysYet(relays) && CanRun(Fresh(relays), steps)
    requires c < |Run(Fresh(relays), steps).conns|
    ensures Balanced(Run(Fresh(relays), steps), s, c)
  {
    hide Run, CanRun, Fresh;
    FreshOk(relays);
    RunKeeps(Fresh(relays), steps);
  }

  /**
   * Every client ever created is either registered, under one printer, or was stopped, exactly once; so are camera
   * proxies.
   */
  lemma {:induction false} StoppedExactlyOnce(relays: Option<map<Serial, Relay>>, steps: seq<Step>)
    requires NoRelaysYet(relays) && CanRun(Fresh(relays), steps)
    ensures var w := Run(Fresh(relays), steps);
            Accounted(w.clients, |w.conns|, w.stopped) && Accounted(w.proxies, |w.cameras|, w.closed)
  {
    hide Accounted, Leased, Wired;
    FreshOk(relays);
    RunKeeps(Fresh(relays), steps);
  }
}
