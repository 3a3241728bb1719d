/** The write-ahead snapshot of the OS proxy and OS DNS settings.
  *
  * A session points one OS setting at the tunnel: the system proxy, or in TUN mode the
  * resolver of each network service. It saves the user's setting in one persisted slot
  * first, so that a crash can be undone. Every call below yields the trail of persistent
  * states it goes through; the process may die at any of them. What an OS hook leaves
  * behind when it fails is arbitrary within what the hook may touch.
  */
module SettingSnapshot {
  import opened Prelude

  /** A setting as the OS holds it: the user's, the tunnel's own endpoint, or half-applied. */
  datatype Setting = Own(config: string) | Tunnel | Torn(detail: string)

  datatype Snap = ProxySnap(proxy: Setting) | DnsSnap(dns: map<string, Setting>)

  /** Everything that survives a crash, and beside it what the user last chose. */
  datatype Disk = Disk(
    proxy: Setting,
    dns: map<string, Setting>,
    slot: Option<Snap>,
    userProxy: Setting,
    userDns: map<string, Setting>)

  /** The snapshot fields of one connection; `tun` is the engine's mode while it lives. */
  datatype Conn = Conn(tun: bool, snapshotTaken: bool, snapshot: Option<Snap>, proxySet: bool)

  /** The hooks the host wired. */
  datatype Host = Host(proxy: bool, dns: bool)

  /** How one hook call went; a failure leaves the setting in any condition. */
  datatype ProxyOutcome = ProxyOk | ProxyFail(left: Setting)
  datatype DnsOutcome = DnsOk | DnsFail(left: map<string, Setting>)

  datatype LeftoverOutcome = LeftoverOutcome(proxy: ProxyOutcome, dns: DnsOutcome, clears: bool)

  datatype Outcome = Outcome(
    supported: bool,
    readable: bool,
    leftover: LeftoverOutcome,
    setProxy: ProxyOutcome,
    restoreProxy: ProxyOutcome,
    setDns: DnsOutcome,
    restoreDns: DnsOutcome,
    clears: bool)

  datatype Trace = Trace(steps: seq<Disk>, conn: Conn)

  function Last(steps: seq<Disk>): Disk
    requires steps != []
  {
    steps[|steps| - 1]
  }

  // ---- Hooks ----

  /** OSProxy.Restore: puts a proxy snapshot back and leaves every other state alone. */
  function ProxyRestore(d: Disk, snap: Snap, o: ProxyOutcome): Disk {
    if snap.DnsSnap? then d
    else d.(proxy := if o.ProxyOk? then snap.proxy else o.left)
  }

  /** Overwrite, for the services both `keys` and the OS know, what `over` says. */
  function Overlay(dns: map<string, Setting>, keys: set<string>, over: map<string, Setting>): (r: map<string, Setting>)
    ensures r.Keys == dns.Keys
    ensures forall k :: k in dns ==> r[k] == if k in keys && k in over then over[k] else dns[k]
  {
    map k | k in dns :: if k in keys && k in over then over[k] else dns[k]
  }

  /** OSDNS.Set: points the services the snapshot holds at the tunnel and changes nothing else. */
  function DnsSet(d: Disk, snap: map<string, Setting>, o: DnsOutcome): Disk {
    d.(dns := Overlay(d.dns, snap.Keys, if o.DnsOk? then map k | k in snap :: Tunnel else o.left))
  }

  /** OSDNS.Restore: touches only the services the snapshot holds. */
  function DnsRestore(d: Disk, snap: Snap, o: DnsOutcome): Disk {
    if snap.ProxySnap? then d
    else d.(dns := Overlay(d.dns, snap.dns.Keys, if o.DnsOk? then snap.dns else o.left))
  }

  /** OSDNS.Snapshot: the previous capture extended with what it does not hold yet. */
  function DnsCapture(prev: map<string, Setting>, dns: map<string, Setting>): (r: map<string, Setting>)
    ensures r.Keys == prev.Keys + dns.Keys
    ensures forall k :: k in r ==> r[k] == if k in prev then prev[k] else dns[k]
  {
    map k | k in prev.Keys + dns.Keys :: if k in prev then prev[k] else dns[k]
  }

  /** A connection's captures: the first, then one more before each Set. */
  function Captures(prev: map<string, Setting>, later: seq<map<string, Setting>>): map<string, Setting>
    decreases |later|
  {
    if later == [] then prev else DnsCapture(Captures(prev, later[..|later| - 1]), later[|later| - 1])
  }

  /** The value of `k` where it was first seen. */
  function FirstSeen(prev: map<string, Setting>, later: seq<map<string, Setting>>, k: string): Option<Setting>
    decreases |later|
  {
    if k in prev then Some(prev[k])
    else if later == [] then None
    else FirstSeen(later[0], later[1..], k)
  }

  lemma {:induction false} FirstSeenSnoc(prev: map<string, Setting>, later: seq<map<string, Setting>>,
                                         m: map<string, Setting>, k: string)
    ensures FirstSeen(prev, later + [m], k) ==
      if FirstSeen(prev, later, k).Some? then FirstSeen(prev, later, k)
      else if k in m then Some(m[k]) else None
    decreases |later|
  {
    if later == [] {
      assert (later + [m])[1..] == [];
    } else {
      assert (later + [m])[1..] == later[1..] + [m];
      FirstSeenSnoc(later[0], later[1..], m, k);
    }
  }

  /** However often a connection re-snapshots, what it holds of a service is the setting seen first:
    * nothing is replaced, nothing seen is missing, and so a tunnel server set in between is never
    * taken for the user's. */
  lemma {:induction false} CapturesKeepFirst(prev: map<string, Setting>, later: seq<map<string, Setting>>, k: string)
    ensures k in Captures(prev, later) <==> FirstSeen(prev, later, k).Some?
    ensures k in Captures(prev, later) ==> Some(Captures(prev, later)[k]) == FirstSeen(prev, later, k)
    decreases |later|
  {
    if later != [] {
      var past, m := later[..|later| - 1], later[|later| - 1];
      CapturesKeepFirst(prev, past, k);
      assert later == past + [m];
      FirstSeenSnoc(prev, past, m, k);
    }
  }

  function Clear(d: Disk, clears: bool): Disk {
    if clears then d.(slot := None) else d
  }

  // ---- The engine's calls ----

  /** restoreLeftoverSnapshot: hand a leftover to both hooks, clear it only once every hook succeeded. */
  function RestoreLeftover(h: Host, d: Disk, o: LeftoverOutcome): (r: (seq<Disk>, bool))
    ensures r.0 != []
  {
    if d.slot.None? then ([d], true)
    else
      var snap := d.slot.value;
      var d1 := if h.proxy then ProxyRestore(d, snap, o.proxy) else d;
      var d2 := if h.dns then DnsRestore(d1, snap, o.dns) else d1;
      var restored := (h.proxy || h.dns) && (h.proxy ==> o.proxy.ProxyOk?) && (h.dns ==> o.dns.DnsOk?);
      ([d, d1, d2, if restored then Clear(d2, o.clears) else d2], restored)
  }

  /** The part of applyProxy after the snapshot: Set, and then save again or put the setting back. */
  function PointProxy(d: Disk, c: Conn, o: Outcome): (t: Trace)
    requires c.snapshot.Some?
    ensures t.steps != []
  {
    var pending := c.(proxySet := true);
    match o.setProxy
    case ProxyOk =>
      var d1 := d.(proxy := Tunnel);
      Trace([d, d1, d1.(slot := c.snapshot)], pending)
    case ProxyFail(left) =>
      var d1 := d.(proxy := left);
      var d2 := ProxyRestore(d1, c.snapshot.value, o.restoreProxy);
      if o.restoreProxy.ProxyFail? then Trace([d, d1, d2], pending)
      else Trace([d, d1, d2, Clear(d2, o.clears)], pending.(proxySet := false))
  }

  function ApplyProxy(h: Host, d: Disk, c: Conn, o: Outcome): (t: Trace)
    requires c.snapshotTaken ==> c.snapshot.Some?
    ensures t.steps != []
  {
    if !h.proxy || !o.supported then Trace([d], c)
    else if c.snapshotTaken then PointProxy(d, c, o)
    else
      var (steps, restored) := RestoreLeftover(h, d, o.leftover);
      if !restored || !o.readable then Trace(steps, c)
      else
        var d1 := Last(steps);
        var taken := c.(snapshotTaken := true, snapshot := Some(ProxySnap(d1.proxy)));
        var t := PointProxy(d1.(slot := taken.snapshot), taken, o);
        Trace(steps + t.steps, t.conn)
  }

  /** The part of applyTunnelDNS after the capture: the caller has saved it already. */
  function PointDns(d: Disk, c: Conn, snap: map<string, Setting>, o: Outcome): (t: Trace)
    requires c.snapshot == Some(DnsSnap(snap))
    ensures t.steps != []
  {
    var pending := c.(proxySet := true);
    var d1 := DnsSet(d, snap, o.setDns);
    if o.setDns.DnsOk? then Trace([d, d1], pending)
    else
      var d2 := DnsRestore(d1, DnsSnap(snap), o.restoreDns);
      if o.restoreDns.DnsFail? then Trace([d, d1, d2], pending)
      else Trace([d, d1, d2, Clear(d2, o.clears)], pending.(proxySet := false))
  }

  function ApplyTunnelDns(h: Host, d: Disk, c: Conn, o: Outcome): (t: Trace)
    requires c.snapshotTaken ==> c.snapshot.Some? && c.snapshot.value.DnsSnap?
    ensures t.steps != []
  {
    if !h.dns || !o.supported then Trace([d], c)
    else
      var (steps, restored) := if c.snapshotTaken then ([d], true) else RestoreLeftover(h, d, o.leftover);
      if !restored || !o.readable then Trace(steps, c)
      else
        var d1 := Last(steps);
        var snap := DnsCapture(if c.snapshotTaken then c.snapshot.value.dns else map[], d1.dns);
        var taken := c.(snapshotTaken := true, snapshot := Some(DnsSnap(snap)));
        var t := PointDns(d1.(slot := taken.snapshot), taken, snap, o);
        Trace(steps + t.steps, t.conn)
  }

  /** applyProxy as promote calls it: TUN mode goes to the resolver instead. */
  function Promote(h: Host, d: Disk, c: Conn, o: Outcome): (t: Trace)
    requires c.snapshotTaken ==> c.snapshot.Some? && c.snapshot.value.DnsSnap? == c.tun
    ensures t.steps != []
  {
    if c.tun then ApplyTunnelDns(h, d, c, o) else ApplyProxy(h, d, c, o)
  }

  /** releaseProxy: put the user's setting back for a recovery gap, keeping the slot. */
  function Release(h: Host, d: Disk, c: Conn, o: Outcome): (t: Trace)
    requires c.proxySet ==> c.snapshot.Some?
    ensures t.steps != []
  {
    if !c.proxySet then Trace([d], c)
    else if c.tun then
      if !h.dns then Trace([d], c)
      else
        Trace([d, DnsRestore(d, c.snapshot.value, o.restoreDns)], c.(proxySet := o.restoreDns.DnsFail?))
    else if !h.proxy then Trace([d], c)
    else
      Trace([d, ProxyRestore(d, c.snapshot.value, o.restoreProxy)], c.(proxySet := o.restoreProxy.ProxyFail?))
  }

  /** cleanupConn: release, and drop the slot if this connection took it and nothing is left to restore. */
  function Exit(h: Host, d: Disk, c: Conn, o: Outcome): (t: Trace)
    requires c.proxySet ==> c.snapshot.Some?
    ensures t.steps != []
  {
    var t := Release(h, d, c, o);
    if !t.conn.proxySet && c.snapshotTaken then Trace(t.steps + [Clear(Last(t.steps), o.clears)], t.conn) else t
  }

  // ---- What must hold of every persistent state ----

  /** Every choice of the user's is the user's own, and the OS knows the services the user knows. */
  predicate UserOk(d: Disk) {
    && d.userProxy.Own?
    && d.dns.Keys == d.userDns.Keys
    && (forall k :: k in d.userDns ==> d.userDns[k].Own?)
  }

  /** A snapshot holds nothing but the user's settings, of a kind this host can restore. */
  predicate Honest(h: Host, d: Disk, snap: Snap) {
    match snap
    case ProxySnap(v) => v == d.userProxy && h.proxy
    case DnsSnap(m) => (forall k :: k in m && k in d.userDns ==> m[k] == d.userDns[k]) && h.dns
  }

  predicate ProxyClean(d: Disk) {
    d.proxy == d.userProxy
  }

  predicate DnsClean(d: Disk) {
    d.dns == d.userDns
  }

  /** Every service whose setting is not the user's is in `m`. */
  predicate DnsCoveredBy(d: Disk, m: map<string, Setting>) {
    d.dns.Keys == d.userDns.Keys && forall k :: k in d.dns && d.dns[k] != d.userDns[k] ==> k in m
  }

  /** Write-ahead: whatever differs from the user's choice can be restored from the slot. */
  predicate WriteAhead(h: Host, d: Disk) {
    && UserOk(d)
    && (d.slot.Some? ==> Honest(h, d, d.slot.value))
    && (ProxyClean(d) || (d.slot.Some? && d.slot.value.ProxySnap?))
    && (DnsClean(d) || (d.slot.Some? && d.slot.value.DnsSnap? && DnsCoveredBy(d, d.slot.value.dns)))
  }

  predicate AllAhead(h: Host, steps: seq<Disk>) {
    forall i :: 0 <= i < |steps| ==> WriteAhead(h, steps[i])
  }

  predicate Clean(d: Disk) {
    ProxyClean(d) && DnsClean(d)
  }

  /** A live connection beside a persistent state. */
  predicate ConnOk(h: Host, d: Disk, c: Conn) {
    && WriteAhead(h, d)
    && (c.proxySet ==> c.snapshotTaken)
    && (c.snapshotTaken ==>
          && c.snapshot.Some?
          && Honest(h, d, c.snapshot.value)
          && c.snapshot.value.DnsSnap? == c.tun
          && (if c.proxySet then d.slot == c.snapshot
              else Clean(d) && (d.slot == c.snapshot || d.slot.None?)))
  }

  // ---- One call ----

  lemma LeftoverAhead(h: Host, d: Disk, o: LeftoverOutcome)
    requires WriteAhead(h, d)
    ensures var (steps, restored) := RestoreLeftover(h, d, o);
      && AllAhead(h, steps)
      && (restored ==> Clean(Last(steps)))
      && Last(steps).userProxy == d.userProxy && Last(steps).userDns == d.userDns
      && Last(steps).dns.Keys == d.dns.Keys
  {
  }

  lemma PointProxyAhead(h: Host, d: Disk, c: Conn, o: Outcome)
    requires WriteAhead(h, d) && c.snapshotTaken && !c.tun
    requires d.slot == c.snapshot && c.snapshot == Some(ProxySnap(d.userProxy))
    ensures var t := PointProxy(d, c, o); AllAhead(h, t.steps) && ConnOk(h, Last(t.steps), t.conn)
  {
  }

  lemma ApplyProxyAhead(h: Host, d: Disk, c: Conn, o: Outcome)
    requires ConnOk(h, d, c) && !c.tun && !(c.snapshotTaken && d.slot.None?)
    ensures var t := ApplyProxy(h, d, c, o); AllAhead(h, t.steps) && ConnOk(h, Last(t.steps), t.conn)
  {
    if h.proxy && o.supported {
      if c.snapshotTaken {
        PointProxyAhead(h, d, c, o);
      } else {
        LeftoverAhead(h, d, o.leftover);
        var (steps, restored) := RestoreLeftover(h, d, o.leftover);
        if restored && o.readable {
          var d1 := Last(steps);
          var taken := c.(snapshotTaken := true, snapshot := Some(ProxySnap(d1.proxy)));
          PointProxyAhead(h, d1.(slot := taken.snapshot), taken, o);
        }
      }
    }
  }

  lemma PointDnsAhead(h: Host, d: Disk, c: Conn, snap: map<string, Setting>, o: Outcome)
    requires WriteAhead(h, d) && c.snapshotTaken && c.tun && d.dns.Keys <= snap.Keys
    requires d.slot == c.snapshot == Some(DnsSnap(snap))
    ensures var t := PointDns(d, c, snap, o); AllAhead(h, t.steps) && ConnOk(h, Last(t.steps), t.conn)
  {
  }

  lemma ApplyTunnelDnsAhead(h: Host, d: Disk, c: Conn, o: Outcome)
    requires ConnOk(h, d, c) && c.tun
    ensures var t := ApplyTunnelDns(h, d, c, o); AllAhead(h, t.steps) && ConnOk(h, Last(t.steps), t.conn)
  {
    if h.dns && o.supported {
      LeftoverAhead(h, d, o.leftover);
      var (steps, restored) := if c.snapshotTaken then ([d], true) else RestoreLeftover(h, d, o.leftover);
      if restored && o.readable {
        var d1 := Last(steps);
        var snap := DnsCapture(if c.snapshotTaken then c.snapshot.value.dns else map[], d1.dns);
        var taken := c.(snapshotTaken := true, snapshot := Some(DnsSnap(snap)));
        PointDnsAhead(h, d1.(slot := taken.snapshot), taken, snap, o);
      }
    }
  }

  lemma ReleaseAhead(h: Host, d: Disk, c: Conn, o: Outcome)
    requires ConnOk(h, d, c)
    ensures var t := Release(h, d, c, o); AllAhead(h, t.steps) && ConnOk(h, Last(t.steps), t.conn)
  {
  }

  lemma ExitAhead(h: Host, d: Disk, c: Conn, o: Outcome)
    requires ConnOk(h, d, c)
    ensures var t := Exit(h, d, c, o); AllAhead(h, t.steps) && WriteAhead(h, Last(t.steps))
  {
    ReleaseAhead(h, d, c, o);
  }

  // ---- Runs over sessions, crashes and restarts ----

  /** A persistent state and, while the process lives, its connection. */
  datatype World = World(disk: Disk, conn: Option<Conn>)

  datatype Call = Start | Connect(tun: bool) | Promotion | Gap | Finish

  /** One engine call with its outcomes, cut short after trail entry `crash` if the process dies
    * there; or a change the user makes to a setting the engine does not hold. */
  datatype Action =
    | Engine(call: Call, o: Outcome, crash: Option<nat>)
    | EditProxy(config: string)
    | EditDns(service: string, config: string)

  predicate Holds(w: World, tun: bool) {
    || (w.disk.slot.Some? && w.disk.slot.value.DnsSnap? == tun)
    || (w.conn.Some? && w.conn.value.snapshotTaken && w.conn.value.tun == tun)
  }

  /** A new service appears with its own setting at any time; any other edit needs the engine's hands off. */
  function Edit(w: World, a: Action): World
    requires !a.Engine?
  {
    match a
    case EditProxy(config) =>
      if Holds(w, false) || !ProxyClean(w.disk) then w
      else World(w.disk.(proxy := Own(config), userProxy := Own(config)), w.conn)
    case EditDns(k, config) =>
      if k in w.disk.dns && (Holds(w, true) || !DnsClean(w.disk)) then w
      else if Mentions(w, k) then w
      else
        World(w.disk.(dns := w.disk.dns[k := Own(config)], userDns := w.disk.userDns[k := Own(config)]), w.conn)
  }

  predicate Mentions(w: World, k: string) {
    || (w.disk.slot.Some? && w.disk.slot.value.DnsSnap? && k in w.disk.slot.value.dns)
    || (w.conn.Some? && w.conn.value.snapshot.Some? && w.conn.value.snapshot.value.DnsSnap?
        && k in w.conn.value.snapshot.value.dns)
  }

  /** The trail of an engine call and the connection after it; a call that does not apply goes nowhere. */
  function CallTrail(h: Host, w: World, call: Call, o: Outcome): (r: (seq<Disk>, Option<Conn>))
    ensures r.0 != []
  {
    match call
    case Start =>
      if w.conn.Some? then ([w.disk], w.conn) else (RestoreLeftover(h, w.disk, o.leftover).0, None)
    case Connect(tun) =>
      ([w.disk], if w.conn.Some? then w.conn else Some(Conn(tun, false, None, false)))
    case Promotion =>
      if w.conn.Some? && Sane(w.conn.value) then
        var t := Promote(h, w.disk, w.conn.value, o);
        (t.steps, Some(t.conn))
      else ([w.disk], w.conn)
    case Gap =>
      if w.conn.Some? && Sane(w.conn.value) then
        var t := Release(h, w.disk, w.conn.value, o);
        (t.steps, Some(t.conn))
      else ([w.disk], w.conn)
    case Finish =>
      if w.conn.Some? && Sane(w.conn.value) then (Exit(h, w.disk, w.conn.value, o).steps, None)
      else ([w.disk], w.conn)
  }

  predicate Sane(c: Conn) {
    && (c.snapshotTaken ==> c.snapshot.Some? && c.snapshot.value.DnsSnap? == c.tun)
    && (c.proxySet ==> c.snapshotTaken)
  }

  function Trail(h: Host, w: World, a: Action): (steps: seq<Disk>)
    ensures steps != []
  {
    if a.Engine? then CallTrail(h, w, a.call, a.o).0 else [Edit(w, a).disk]
  }

  function Act(h: Host, w: World, a: Action): World {
    if !a.Engine? then Edit(w, a)
    else
      var (steps, conn) := CallTrail(h, w, a.call, a.o);
      if a.crash.Some? && a.crash.value < |steps| then World(steps[a.crash.value], None)
      else World(Last(steps), conn)
  }

  function Run(h: Host, w: World, acts: seq<Action>): World
    decreases |acts|
  {
    if acts == [] then w else Act(h, Run(h, w, acts[..|acts| - 1]), acts[|acts| - 1])
  }

  predicate WorldOk(h: Host, w: World) {
    WriteAhead(h, w.disk) && (w.conn.Some? ==> ConnOk(h, w.disk, w.conn.value))
  }

  /** The one hole: a proxy promotion that already has its snapshot while the slot is empty calls
    * Set before it saves again. */
  predicate UnsavedPromotion(h: Host, w: World, a: Action) {
    && a.Engine? && a.call.Promotion? && h.proxy
    && w.conn.Some? && !w.conn.value.tun && w.conn.value.snapshotTaken && w.disk.slot.None?
  }

  predicate Guarded(h: Host, w: World, acts: seq<Action>)
    decreases |acts|
  {
    acts == [] ||
    (Guarded(h, w, acts[..|acts| - 1]) && !UnsavedPromotion(h, Run(h, w, acts[..|acts| - 1]), acts[|acts| - 1]))
  }

  lemma EditOk(h: Host, w: World, a: Action)
    requires WorldOk(h, w) && !a.Engine?
    ensures WorldOk(h, Edit(w, a))
  {
  }

  lemma ActOk(h: Host, w: World, a: Action)
    requires WorldOk(h, w) && !UnsavedPromotion(h, w, a)
    ensures AllAhead(h, Trail(h, w, a)) && WorldOk(h, Act(h, w, a))
  {
    if !a.Engine? {
      EditOk(h, w, a);
    } else {
      match a.call {
        case Start => if w.conn.None? { LeftoverAhead(h, w.disk, a.o.leftover); }
        case Connect(_) =>
        case Promotion =>
          if w.conn.Some? && h.proxy && !w.conn.value.tun { ApplyProxyAhead(h, w.disk, w.conn.value, a.o); }
          if w.conn.Some? && w.conn.value.tun { ApplyTunnelDnsAhead(h, w.disk, w.conn.value, a.o); }
        case Gap => if w.conn.Some? { ReleaseAhead(h, w.disk, w.conn.value, a.o); }
        case Finish => if w.conn.Some? { ExitAhead(h, w.disk, w.conn.value, a.o); }
      }
    }
  }

  lemma {:induction false} RunOk(h: Host, w: World, acts: seq<Action>)
    requires WorldOk(h, w) && Guarded(h, w, acts)
    ensures WorldOk(h, Run(h, w, acts))
    decreases |acts|
  {
    if acts != [] {
      RunOk(h, w, acts[..|acts| - 1]);
      ActOk(h, Run(h, w, acts[..|acts| - 1]), acts[|acts| - 1]);
    }
  }

  /** Over any run of launches, connects, promotions, gaps, exits, crashes and user edits, with any
    * hook failures, that never makes the unsaved promotion: at every persistent state of the next
    * action too, whatever differs from the user's choice is recoverable from the slot. */
  lemma WriteAheadAlways(h: Host, w: World, acts: seq<Action>, next: Action)
    requires WorldOk(h, w) && Guarded(h, w, acts + [next])
    ensures AllAhead(h, Trail(h, Run(h, w, acts), next))
  {
    assert (acts + [next])[..|acts|] == acts;
    RunOk(h, w, acts);
    ActOk(h, Run(h, w, acts), next);
  }

  /** Runs whose connections are all TUN ones need no such condition. */
  predicate TunOnly(acts: seq<Action>) {
    forall i :: 0 <= i < |acts| && acts[i].Engine? && acts[i].call.Connect? ==> acts[i].call.tun
  }

  lemma {:induction false} TunOnlyIsGuarded(h: Host, w: World, acts: seq<Action>)
    requires TunOnly(acts) && (w.conn.Some? ==> w.conn.value.tun)
    ensures Guarded(h, w, acts) && (Run(h, w, acts).conn.Some? ==> Run(h, w, acts).conn.value.tun)
    decreases |acts|
  {
    if acts != [] {
      TunOnlyIsGuarded(h, w, acts[..|acts| - 1]);
    }
  }

  lemma DnsWriteAheadAlways(h: Host, w: World, acts: seq<Action>, next: Action)
    requires WorldOk(h, w) && TunOnly(acts + [next]) && (w.conn.Some? ==> w.conn.value.tun)
    ensures AllAhead(h, Trail(h, Run(h, w, acts), next))
  {
    TunOnlyIsGuarded(h, w, acts + [next]);
    WriteAheadAlways(h, w, acts, next);
  }

  /** On the proxy path one call keeps the write-ahead rule for every outcome exactly when its
    * snapshot, once taken, is in the slot. */
  lemma ProxyAheadIffSaved(h: Host, d: Disk, c: Conn)
    requires ConnOk(h, d, c) && !c.tun && h.proxy
    ensures (forall o :: AllAhead(h, ApplyProxy(h, d, c, o).steps)) <==> !(c.snapshotTaken && d.slot.None?)
  {
    if c.snapshotTaken && d.slot.None? {
      var o := Outcome(true, true, LeftoverOutcome(ProxyOk, DnsOk, true), ProxyOk, ProxyOk, DnsOk, DnsOk, true);
      var t := ApplyProxy(h, d, c, o);
      assert t.steps[1] == d.(proxy := Tunnel);
      assert !WriteAhead(h, t.steps[1]);
      assert !AllAhead(h, t.steps);
    } else {
      forall o ensures AllAhead(h, ApplyProxy(h, d, c, o).steps) { ApplyProxyAhead(h, d, c, o); }
    }
  }

  // ---- What a TUN connection has captured ----

  predicate WorldSane(w: World) { w.conn.Some? ==> Sane(w.conn.value) }

  lemma ActSane(h: Host, w: World, a: Action)
    requires WorldSane(w)
    ensures WorldSane(Act(h, w, a))
  {
  }

  /** The action is a promotion of a TUN connection that gets as far as its capture and is not cut
    * short. */
  predicate CapturesDns(h: Host, w: World, a: Action) {
    && a.Engine? && a.call.Promotion? && Completes(h, w, a)
    && w.conn.Some? && w.conn.value.tun && Sane(w.conn.value)
    && h.dns && a.o.supported && a.o.readable
    && (w.conn.value.snapshotTaken || RestoreLeftover(h, w.disk, a.o.leftover).1)
  }

  /** The settings its capture sees. */
  function SeenAtCapture(h: Host, w: World, o: Outcome): map<string, Setting>
    requires w.conn.Some?
  {
    if w.conn.value.snapshotTaken then w.disk.dns else Last(RestoreLeftover(h, w.disk, o.leftover).0).dns
  }

  /** What the captures of the live connection have seen, in order. */
  function Seen(h: Host, w: World, acts: seq<Action>): seq<map<string, Setting>>
    decreases |acts|
  {
    if acts == [] then []
    else
      var past, a := acts[..|acts| - 1], acts[|acts| - 1];
      var before := Run(h, w, past);
      if before.conn.None? || Act(h, before, a).conn.None? then []
      else Seen(h, w, past) + if CapturesDns(h, before, a) then [SeenAtCapture(h, before, a.o)] else []
  }

  /** The snapshot of a TUN connection is the fold of the captures it has made. */
  predicate HoldsCaptures(w: World, seen: seq<map<string, Setting>>) {
    w.conn.Some? && w.conn.value.tun ==>
      && (w.conn.value.snapshotTaken <==> seen != [])
      && (seen != [] ==> w.conn.value.snapshot == Some(DnsSnap(Captures(map[], seen))))
  }

  lemma CaptureExtends(h: Host, w: World, a: Action, seen: seq<map<string, Setting>>)
    requires WorldSane(w) && HoldsCaptures(w, seen) && CapturesDns(h, w, a)
    ensures HoldsCaptures(Act(h, w, a), seen + [SeenAtCapture(h, w, a.o)])
  {
    var m := SeenAtCapture(h, w, a.o);
    assert (seen + [m])[..|seen|] == seen;
  }

  lemma NoCaptureKeeps(h: Host, w: World, a: Action, seen: seq<map<string, Setting>>)
    requires WorldSane(w) && HoldsCaptures(w, seen) && w.conn.Some? && !CapturesDns(h, w, a)
    ensures HoldsCaptures(Act(h, w, a), seen)
  {
  }

  /** Over any run from a launch, with any failures, a TUN connection's snapshot is exactly the fold of
    * the settings its promotions have seen; so by CapturesKeepFirst it holds of every service the
    * setting that its connection saw first. */
  lemma {:induction false} SnapshotIsItsCaptures(h: Host, w: World, acts: seq<Action>)
    requires w.conn.None?
    ensures WorldSane(Run(h, w, acts)) && HoldsCaptures(Run(h, w, acts), Seen(h, w, acts))
    decreases |acts|
  {
    if acts != [] {
      var past, a := acts[..|acts| - 1], acts[|acts| - 1];
      SnapshotIsItsCaptures(h, w, past);
      var before := Run(h, w, past);
      ActSane(h, before, a);
      if before.conn.Some? {
        if CapturesDns(h, before, a) {
          CaptureExtends(h, before, a, Seen(h, w, past));
        } else {
          NoCaptureKeeps(h, before, a, Seen(h, w, past));
          assert Seen(h, w, past) + [] == Seen(h, w, past);
        }
      }
    }
  }

  /** A service a TUN connection holds, it holds as it was when the connection first saw it. */
  lemma SnapshotHoldsFirstSeen(h: Host, w: World, acts: seq<Action>, k: string)
    requires w.conn.None?
    requires var r := Run(h, w, acts); r.conn.Some? && r.conn.value.tun && r.conn.value.snapshotTaken
    ensures var snap := Run(h, w, acts).conn.value.snapshot; var first := FirstSeen(map[], Seen(h, w, acts), k);
      && snap.Some? && snap.value.DnsSnap?
      && (k in snap.value.dns <==> first.Some?)
      && (k in snap.value.dns ==> Some(snap.value.dns[k]) == first)
  {
    SnapshotIsItsCaptures(h, w, acts);
    CapturesKeepFirst(map[], Seen(h, w, acts), k);
  }

  /** What a DNS snapshot holds of the user's services is the user's own choice. */
  predicate UsersDns(d: Disk, m: map<string, Setting>) {
    forall k :: k in m && k in d.userDns ==> m[k] == d.userDns[k] && m[k].Own?
  }

  // ---- When the hole can open ----

  /** A taken proxy snapshot is in the slot. */
  predicate Saved(w: World) {
    w.conn.Some? && !w.conn.value.tun && w.conn.value.snapshotTaken ==> w.disk.slot.Some?
  }

  /** A promotion whose Set fails, whose restore succeeds and whose clearing takes effect. */
  predicate Undone(a: Action) {
    a.Engine? && a.call.Promotion? && a.o.setProxy.ProxyFail? && a.o.restoreProxy.ProxyOk? && a.o.clears
  }

  /** The proxy promotion gets as far as Set. */
  predicate Sets(h: Host, w: World, o: Outcome) {
    && h.proxy && o.supported && w.conn.Some? && !w.conn.value.tun
    && (w.conn.value.snapshotTaken || (o.readable && RestoreLeftover(h, w.disk, o.leftover).1))
  }

  /** The call was not cut short. */
  predicate Completes(h: Host, w: World, a: Action) {
    a.Engine? && (a.crash.None? || a.crash.value >= |CallTrail(h, w, a.call, a.o).0|)
  }

  /** A proxy promotion leaves its snapshot unsaved exactly when it gets as far as a Set that fails
    * and is undone, slot included. */
  lemma PromotionUnsavesIff(h: Host, w: World, o: Outcome)
    requires WorldOk(h, w) && Saved(w) && w.conn.Some? && !w.conn.value.tun
    ensures var t := ApplyProxy(h, w.disk, w.conn.value, o);
      t.conn.snapshotTaken && Last(t.steps).slot.None? <==>
      Sets(h, w, o) && o.setProxy.ProxyFail? && o.restoreProxy.ProxyOk? && o.clears
  {
  }

  /** No other call does, and neither does an edit or a crash. */
  lemma UnsavedIffUndone(h: Host, w: World, a: Action)
    requires WorldOk(h, w) && Saved(w)
    ensures !Saved(Act(h, w, a)) <==> Undone(a) && Completes(h, w, a) && Sets(h, w, a.o)
  {
    if a.Engine? && a.call.Promotion? && w.conn.Some? && !w.conn.value.tun {
      PromotionUnsavesIff(h, w, a.o);
    }
  }

  predicate NoneUndone(acts: seq<Action>) {
    forall i :: 0 <= i < |acts| ==> !Undone(acts[i])
  }

  /** So a run in which no failed Set is undone never makes the unsaved promotion. */
  lemma {:induction false} NoneUndoneIsGuarded(h: Host, w: World, acts: seq<Action>)
    requires WorldOk(h, w) && Saved(w) && NoneUndone(acts)
    ensures Guarded(h, w, acts) && Saved(Run(h, w, acts))
    decreases |acts|
  {
    if acts != [] {
      var past := acts[..|acts| - 1];
      NoneUndoneIsGuarded(h, w, past);
      RunOk(h, w, past);
      UnsavedIffUndone(h, Run(h, w, past), acts[|acts| - 1]);
    }
  }

  /** The write-ahead rule over every run, by what the hooks do alone. */
  lemma WriteAheadUnlessUndone(h: Host, w: World, acts: seq<Action>, next: Action)
    requires WorldOk(h, w) && Saved(w) && NoneUndone(acts)
    ensures AllAhead(h, Trail(h, Run(h, w, acts), next)) && WorldOk(h, Act(h, Run(h, w, acts), next))
  {
    NoneUndoneIsGuarded(h, w, acts);
    RunOk(h, w, acts);
    ActOk(h, Run(h, w, acts), next);
  }

  /** No guarded run ever takes anything but the user's own setting for the user's. */
  lemma OwnEndpointNeverCaptured(h: Host, w: World, acts: seq<Action>)
    requires WorldOk(h, w) && Guarded(h, w, acts)
    ensures var r := Run(h, w, acts);
      && (r.disk.slot.Some? && r.disk.slot.value.ProxySnap? ==> r.disk.slot.value.proxy == r.disk.userProxy)
      && (r.conn.Some? && r.conn.value.snapshotTaken && !r.conn.value.tun ==>
            r.conn.value.snapshot == Some(ProxySnap(r.disk.userProxy)))
      && r.disk.userProxy.Own?
      && (r.disk.slot.Some? && r.disk.slot.value.DnsSnap? ==> UsersDns(r.disk, r.disk.slot.value.dns))
      && (r.conn.Some? && r.conn.value.snapshotTaken && r.conn.value.tun ==>
            r.conn.value.snapshot.Some? && r.conn.value.snapshot.value.DnsSnap?
            && UsersDns(r.disk, r.conn.value.snapshot.value.dns))
  {
    RunOk(h, w, acts);
  }

  /** After any guarded run, one launch whose restores succeed gives the user every setting back, and
    * empties the slot if clearing takes effect. */
  lemma LaunchRestores(h: Host, w: World, acts: seq<Action>, o: Outcome)
    requires WorldOk(h, w) && Guarded(h, w, acts) && Run(h, w, acts).conn.None?
    requires o.leftover.proxy.ProxyOk? && o.leftover.dns.DnsOk?
    ensures var after := Act(h, Run(h, w, acts), Engine(Start, o, None)).disk;
      Clean(after) && (o.leftover.clears ==> after.slot.None?)
  {
    RunOk(h, w, acts);
    LeftoverAhead(h, Run(h, w, acts).disk, o.leftover);
  }

  // ---- What a session gives and takes back ----

  predicate RestoresWell(o: Outcome) { o.restoreProxy.ProxyOk? && o.restoreDns.DnsOk? }

  /** With good restores a release of a connection that has taken its snapshot leaves every setting the
    * user's, and nothing pending. */
  lemma ReleaseGivesBack(h: Host, d: Disk, c: Conn, o: Outcome)
    requires ConnOk(h, d, c) && c.snapshotTaken && RestoresWell(o)
    ensures var t := Release(h, d, c, o); Clean(Last(t.steps)) && !t.conn.proxySet && Last(t.steps).slot == d.slot
  {
    if c.proxySet && c.tun {
      assert DnsRestore(d, c.snapshot.value, o.restoreDns).dns == d.userDns;
    }
  }

  lemma ExitGivesBack(h: Host, d: Disk, c: Conn, o: Outcome)
    requires ConnOk(h, d, c) && c.snapshotTaken && RestoresWell(o)
    ensures var last := Last(Exit(h, d, c, o).steps); Clean(last) && (o.clears ==> last.slot.None?)
  {
    ReleaseGivesBack(h, d, c, o);
  }

  /** After any guarded run a recovery gap whose restores succeed leaves the user every setting, keeps the
    * snapshot and has nothing pending. */
  lemma GapGivesBack(h: Host, w: World, acts: seq<Action>, o: Outcome)
    requires WorldOk(h, w) && Guarded(h, w, acts) && RestoresWell(o)
    requires var r := Run(h, w, acts); r.conn.Some? && r.conn.value.snapshotTaken
    ensures var r, after := Run(h, w, acts), Act(h, Run(h, w, acts), Engine(Gap, o, None));
      && Clean(after.disk) && after.disk.slot == r.disk.slot
      && after.conn == Some(r.conn.value.(proxySet := false))
  {
    RunOk(h, w, acts);
    var r := Run(h, w, acts);
    ReleaseGivesBack(h, r.disk, r.conn.value, o);
  }

  /** And so does an exit, which also empties the slot it filled. */
  lemma FinishGivesBack(h: Host, w: World, acts: seq<Action>, o: Outcome)
    requires WorldOk(h, w) && Guarded(h, w, acts) && RestoresWell(o)
    requires var r := Run(h, w, acts); r.conn.Some? && r.conn.value.snapshotTaken
    ensures var after := Act(h, Run(h, w, acts), Engine(Finish, o, None));
      Clean(after.disk) && (o.clears ==> after.disk.slot.None?) && after.conn.None?
  {
    RunOk(h, w, acts);
    ExitGivesBack(h, Run(h, w, acts).disk, Run(h, w, acts).conn.value, o);
  }

  /** A connection that never took a snapshot leaves the settings, and a snapshot of an earlier session, as
    * they are. */
  lemma UntouchedIsLeftAlone(h: Host, w: World, acts: seq<Action>, call: Call, o: Outcome)
    requires WorldOk(h, w) && Guarded(h, w, acts) && (call.Gap? || call.Finish?)
    requires var r := Run(h, w, acts); r.conn.Some? && !r.conn.value.snapshotTaken
    ensures Act(h, Run(h, w, acts), Engine(call, o, None)).disk == Run(h, w, acts).disk
  {
    RunOk(h, w, acts);
  }

  /** A promotion that gets as far as a Set that succeeds points the session's setting at the tunnel, in TUN
    * mode the resolver of every service there is, with the snapshot in the slot and its restoration
    * pending. */
  lemma PromotionPointsAtTunnel(h: Host, w: World, acts: seq<Action>, o: Outcome)
    requires WorldOk(h, w) && Guarded(h, w, acts)
    ensures var r, a := Run(h, w, acts), Engine(Promotion, o, None);
      var after := Act(h, r, a);
      && (Sets(h, r, o) && o.setProxy.ProxyOk? ==> after.disk.proxy == Tunnel && Pending(after))
      && (CapturesDns(h, r, a) && o.setDns.DnsOk? ==>
            Pending(after) && forall k :: k in after.disk.dns ==> after.disk.dns[k] == Tunnel)
  {
    RunOk(h, w, acts);
    var r, a := Run(h, w, acts), Engine(Promotion, o, None);
    if CapturesDns(h, r, a) && o.setDns.DnsOk? { DnsPointsAtTunnel(h, r.disk, r.conn.value, o); }
  }

  predicate Pending(w: World) {
    && w.conn.Some? && w.conn.value.proxySet && w.conn.value.snapshotTaken
    && w.disk.slot == w.conn.value.snapshot && w.disk.slot.Some?
  }

  /** Nothing is pending, and the user has every setting; the snapshot is kept, and the slot emptied if
    * clearing takes effect. */
  predicate PutBack(w: World, clears: bool) {
    && w.conn.Some? && w.conn.value.snapshotTaken && !w.conn.value.proxySet
    && Clean(w.disk) && (clears ==> w.disk.slot.None?)
  }

  lemma ProxySetUndone(h: Host, d: Disk, c: Conn, o: Outcome)
    requires ConnOk(h, d, c) && !c.tun && h.proxy && o.supported && o.setProxy.ProxyFail?
    requires !(c.snapshotTaken && d.slot.None?)
    requires c.snapshotTaken || (o.readable && RestoreLeftover(h, d, o.leftover).1)
    ensures var t := ApplyProxy(h, d, c, o);
      var after := World(Last(t.steps), Some(t.conn));
      if o.restoreProxy.ProxyOk? then PutBack(after, o.clears) else Pending(after)
  {
    ApplyProxyAhead(h, d, c, o);
  }

  lemma DnsSetUndone(h: Host, d: Disk, c: Conn, o: Outcome)
    requires ConnOk(h, d, c) && c.tun && h.dns && o.supported && o.readable && o.setDns.DnsFail?
    requires c.snapshotTaken || RestoreLeftover(h, d, o.leftover).1
    ensures var t := ApplyTunnelDns(h, d, c, o);
      var after := World(Last(t.steps), Some(t.conn));
      if o.restoreDns.DnsOk? then PutBack(after, o.clears) else Pending(after)
  {
    ApplyTunnelDnsAhead(h, d, c, o);
  }

  /** A promotion whose Set fails puts the user's setting back, and has it pending, with the snapshot in the
    * slot, exactly when that fails too. */
  lemma FailedSetIsUndone(h: Host, w: World, acts: seq<Action>, o: Outcome)
    requires WorldOk(h, w) && Guarded(h, w, acts + [Engine(Promotion, o, None)])
    ensures var r, a := Run(h, w, acts), Engine(Promotion, o, None);
      var after := Act(h, r, a);
      && (Sets(h, r, o) && o.setProxy.ProxyFail? ==>
            if o.restoreProxy.ProxyOk? then PutBack(after, o.clears) else Pending(after))
      && (CapturesDns(h, r, a) && o.setDns.DnsFail? ==>
            if o.restoreDns.DnsOk? then PutBack(after, o.clears) else Pending(after))
  {
    var a := Engine(Promotion, o, None);
    assert (acts + [a])[..|acts|] == acts;
    RunOk(h, w, acts);
    var r := Run(h, w, acts);
    if Sets(h, r, o) && o.setProxy.ProxyFail? { ProxySetUndone(h, r.disk, r.conn.value, o); }
    if CapturesDns(h, r, a) && o.setDns.DnsFail? { DnsSetUndone(h, r.disk, r.conn.value, o); }
  }

  lemma DnsPointsAtTunnel(h: Host, d: Disk, c: Conn, o: Outcome)
    requires ConnOk(h, d, c) && c.tun && h.dns && o.supported && o.readable && o.setDns.DnsOk?
    requires c.snapshotTaken || RestoreLeftover(h, d, o.leftover).1
    ensures var t := ApplyTunnelDns(h, d, c, o);
      && Pending(World(Last(t.steps), Some(t.conn)))
      && forall k :: k in Last(t.steps).dns ==> Last(t.steps).dns[k] == Tunnel
  {
    var steps := if c.snapshotTaken then [d] else RestoreLeftover(h, d, o.leftover).0;
    var d1 := Last(steps);
    var snap := DnsCapture(if c.snapshotTaken then c.snapshot.value.dns else map[], d1.dns);
    var taken := c.(snapshotTaken := true, snapshot := Some(DnsSnap(snap)));
    var t := PointDns(d1.(slot := taken.snapshot), taken, snap, o);
    assert Last(steps + t.steps) == Last(t.steps);
  }

  // ---- The hole, concretely ----

  function Went(set_: ProxyOutcome, restore: ProxyOutcome): Outcome {
    Outcome(true, true, LeftoverOutcome(ProxyOk, DnsOk, true), set_, restore, DnsOk, DnsOk, true)
  }

  /** Set fails and is put back, the session recovers and promotes again, and the process dies
    * right after that Set: the proxy points at the tunnel with nothing saved, and the next
    * session records OpenRung's own endpoint as the user's setting. */
  lemma HoleLosesTheUsersProxy(config: string)
    ensures var h := Host(true, false);
      var w := World(Disk(Own(config), map[], None, Own(config), map[]), None);
      var failed := Engine(Promotion, Went(ProxyFail(Own(config)), ProxyOk), None);
      var again := Engine(Promotion, Went(ProxyOk, ProxyOk), Some(1));
      var lost := Act(h, Act(h, Act(h, w, Engine(Connect(false), Went(ProxyOk, ProxyOk), None)), failed), again);
      var next := Act(h, Act(h, Act(h, lost, Engine(Start, Went(ProxyOk, ProxyOk), None)),
                             Engine(Connect(false), Went(ProxyOk, ProxyOk), None)),
                      Engine(Promotion, Went(ProxyOk, ProxyOk), None));
      && WorldOk(h, w)
      && lost.disk.proxy == Tunnel && lost.disk.slot.None? && !WriteAhead(h, lost.disk)
      && next.disk.slot == Some(ProxySnap(Tunnel))
  {
  }
}
