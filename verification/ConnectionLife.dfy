/** One LAN client's connection over everything that can happen to it, and what a printer's address and name mean. */
module ConnectionLife {
  import opened Prelude
  import opened PrinterService

  datatype Use = Leases | Releases | Sends | Hears | Stops

  function Used(c: Connection, use: Use): Connection {
    match use
    case Leases => Acquire(c)
    case Releases => Release(c)
    case Sends => EnsureConnected(c)
    case Hears => Schedule(c)
    case Stops => Stop(c)
  }

  function UsedAll(c: Connection, uses: seq<Use>): Connection {
    if uses == [] then c else Used(UsedAll(c, uses[..|uses| - 1]), uses[|uses| - 1])
  }

  // Leased or sent to since it was last stopped.
  predicate ConnectedSince(uses: seq<Use>) {
    uses != [] &&
    match uses[|uses| - 1]
    case Leases => true
    case Sends => true
    case Stops => false
    case _ => ConnectedSince(uses[..|uses| - 1])
  }

  // One up for each lease, one down for each release, but never below none.
  function Outstanding(uses: seq<Use>): nat {
    if uses == [] then 0
    else
      var before := Outstanding(uses[..|uses| - 1]);
      match uses[|uses| - 1]
      case Leases => before + 1
      case Releases => Max(0, before - 1)
      case _ => before
  }

  /**
   * However a new client is leased, released, used and stopped: it holds a session exactly if it was leased or used
   * since its last stop; leases are counted and never negative; and the idle timer runs exactly while it holds a
   * session that nobody leases.
   */
  lemma {:induction false} ConnectionTells(cfg: Config, b: BrokerId, uses: seq<Use>)
    ensures var c := UsedAll(Connection(cfg, Display(cfg), false, 0, false, b), uses);
            && c.session == ConnectedSince(uses) && c.leases == Outstanding(uses)
            && c.timer == (ConnectedSince(uses) && Outstanding(uses) == 0)
            && c.config == cfg && c.wiredTo == b && c.shown == Display(cfg)
  {
    hide Display;
    if uses != [] {
      ConnectionTells(cfg, b, uses[..|uses| - 1]);
    }
  }

  /** A printer is shown by its name, or without one by the last four characters of its serial, or as many as it has. */
  lemma {:induction false} ShownName(cfg: Config, t: string)
    requires if |cfg.serial| < 4 then t == cfg.serial else |t| == 4 && exists head :: cfg.serial == head + t
    ensures Display(cfg) == if cfg.name == "" then "Printer " + t else cfg.name
  {
    if |cfg.serial| >= 4 {
      var head :| cfg.serial == head + t;
      assert cfg.serial[|cfg.serial| - 4..] == t;
    } else {
      assert cfg.serial[0..] == cfg.serial;
    }
  }

  /** A camera is dialled for a printer without a proxy exactly when it is a JPEG one with both address and code. */
  lemma {:induction false} DialsIff(w: World, s: Serial, jpeg: bool)
    ensures var n := Watch(w, s, jpeg);
            if s in w.proxies || s !in w.configs || w.configs[s].ip == "" || w.configs[s].accessCode == "" || !jpeg
            then n == w
            else
              && n.proxies.Keys == w.proxies.Keys + {s} && n.proxies[s] == |w.cameras|
              && n.cameras == w.cameras + [Proxy(w.configs[s].ip, w.configs[s].accessCode)]
              && forall other | other in w.proxies :: n.proxies[other] == w.proxies[other]
  {}

  /** A broker's printer files count as reachable exactly when the printer's address and code are both known. */
  lemma {:induction false} FilesReachableIff(w: World, s: Serial)
    requires InRange(w) && s in w.brokers
    ensures SetFileFlag(w, s).feeds[w.brokers[s]].fileAvailable <==>
            s in w.configs && w.configs[s].ip != "" && w.configs[s].accessCode != ""
  {}
}
