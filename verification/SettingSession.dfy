/** The engine's calls on the OS proxy and OS DNS settings, statement by statement. Each goes only
  * through persistent states on the trail SettingSnapshot gives for it, and ends where it ends. */
module SettingSession {
  import opened Prelude
  import opened SettingSnapshot

  class Session {
    const host: Host
    const tun: bool
    var disk: Disk
    var snapshotTaken: bool
    var snapshot: Option<Snap>
    var proxySet: bool
    // The persistent states passed through so far.
    ghost var visited: set<Disk>

    constructor (host: Host, tun: bool, disk: Disk)
      ensures this.host == host && this.tun == tun && this.disk == disk
      ensures View() == Conn(tun, false, None, false) && visited == {disk}
    {
      this.host, this.tun, this.disk := host, tun, disk;
      snapshotTaken, snapshot, proxySet, visited := false, None, false, {disk};
    }

    function View(): Conn
      reads this
    {
      Conn(tun, snapshotTaken, snapshot, proxySet)
    }

    /** The session now stands at the end of `steps`, and all it went through since `before` is on it. */
    ghost predicate Followed(before: set<Disk>, steps: seq<Disk>)
      reads this
    {
      steps != [] && disk == Last(steps) && forall d :: d in visited ==> d in before || d in steps
    }

    method Persist(d: Disk)
      modifies this`disk, this`visited
      ensures disk == d && visited == old(visited) + {d}
    {
      disk := d;
      visited := visited + {d};
    }

    method RestoreLeftoverSnapshot(o: LeftoverOutcome) returns (restored: bool)
      modifies this`disk, this`visited
      ensures restored == RestoreLeftover(host, old(disk), o).1
      ensures Followed(old(visited), RestoreLeftover(host, old(disk), o).0)
    {
      if disk.slot.None? {
        assert disk in RestoreLeftover(host, old(disk), o).0;
        return true;
      }
      var snap := disk.slot.value;
      restored := host.proxy || host.dns;
      if host.proxy {
        Persist(ProxyRestore(disk, snap, o.proxy));
        if o.proxy.ProxyFail? {
          restored := false;
        }
      }
      if host.dns {
        Persist(DnsRestore(disk, snap, o.dns));
        if o.dns.DnsFail? {
          restored := false;
        }
      }
      if restored {
        Persist(Clear(disk, o.clears));
      }
      ghost var steps := RestoreLeftover(host, old(disk), o).0;
      assert steps[1] in steps && steps[2] in steps && steps[3] in steps;
    }

    /** The part of applyProxy from marking the restoration pending. */
    method PointOsProxy(o: Outcome)
      requires snapshot.Some? && !tun
      modifies this`disk, this`visited, this`proxySet
      ensures var t := PointProxy(old(disk), old(View()), o); View() == t.conn && Followed(old(visited), t.steps)
    {
      ghost var t := PointProxy(old(disk), old(View()), o);
      assert t.steps[1] in t.steps && t.steps[2] in t.steps;
      proxySet := true;
      if o.setProxy.ProxyFail? {
        Persist(disk.(proxy := o.setProxy.left));
        Persist(ProxyRestore(disk, snapshot.value, o.restoreProxy));
        if o.restoreProxy.ProxyFail? {
          return;
        }
        assert t.steps[3] in t.steps;
        proxySet := false;
        Persist(Clear(disk, o.clears));
        return;
      }
      Persist(disk.(proxy := Tunnel));
      Persist(disk.(slot := snapshot));
    }

    /** applyProxy. */
    method ApplyOsProxy(o: Outcome)
      requires !tun && (snapshotTaken ==> snapshot.Some?)
      modifies this
      ensures var t := ApplyProxy(host, old(disk), old(View()), o); View() == t.conn && Followed(old(visited), t.steps)
    {
      if !host.proxy || !o.supported {
        return;
      }
      ghost var steps := [];
      if !snapshotTaken {
        steps := RestoreLeftover(host, disk, o.leftover).0;
        var restored := RestoreLeftoverSnapshot(o.leftover);
        if !restored || !o.readable {
          return;
        }
        snapshot := Some(ProxySnap(disk.proxy));
        snapshotTaken := true;
        Persist(disk.(slot := snapshot));
      }
      ghost var t := PointProxy(disk, View(), o);
      assert t.steps[0] in t.steps;
      PointOsProxy(o);
      assert steps != [] ==> ApplyProxy(host, old(disk), old(View()), o).steps == steps + t.steps;
    }

    /** The part of applyTunnelDNS from marking the restoration pending. */
    method PointOsDns(o: Outcome)
      requires snapshot.Some? && snapshot.value.DnsSnap?
      modifies this`disk, this`visited, this`proxySet
      ensures var t := PointDns(old(disk), old(View()), snapshot.value.dns, o);
        View() == t.conn && Followed(old(visited), t.steps)
    {
      ghost var t := PointDns(old(disk), old(View()), snapshot.value.dns, o);
      assert t.steps[1] in t.steps;
      proxySet := true;
      Persist(DnsSet(disk, snapshot.value.dns, o.setDns));
      if o.setDns.DnsFail? {
        assert t.steps[2] in t.steps;
        Persist(DnsRestore(disk, snapshot.value, o.restoreDns));
        if o.restoreDns.DnsFail? {
          return;
        }
        assert t.steps[3] in t.steps;
        proxySet := false;
        Persist(Clear(disk, o.clears));
      }
    }

    /** applyTunnelDNS. */
    method ApplyOsDns(o: Outcome)
      requires snapshotTaken ==> snapshot.Some? && snapshot.value.DnsSnap?
      modifies this
      ensures var t := ApplyTunnelDns(host, old(disk), old(View()), o);
        View() == t.conn && Followed(old(visited), t.steps)
    {
      if !host.dns || !o.supported {
        return;
      }
      ghost var steps := if snapshotTaken then [disk] else RestoreLeftover(host, disk, o.leftover).0;
      if !snapshotTaken {
        var restored := RestoreLeftoverSnapshot(o.leftover);
        if !restored {
          return;
        }
      }
      if !o.readable {
        return;
      }
      var prev := if snapshotTaken then snapshot.value.dns else map[];
      snapshot := Some(DnsSnap(DnsCapture(prev, disk.dns)));
      snapshotTaken := true;
      Persist(disk.(slot := snapshot));
      ghost var t := PointDns(disk, View(), snapshot.value.dns, o);
      assert t.steps[0] in t.steps;
      PointOsDns(o);
      assert ApplyTunnelDns(host, old(disk), old(View()), o).steps == steps + t.steps;
    }

    /** releaseProxy. */
    method ReleaseProxy(o: Outcome) returns (restored: bool)
      requires proxySet ==> snapshot.Some?
      modifies this`disk, this`visited, this`proxySet
      ensures var t := Release(host, old(disk), old(View()), o); View() == t.conn && Followed(old(visited), t.steps)
      ensures restored <==> !proxySet
      ensures old(ConnOk(host, disk, View())) && snapshotTaken && RestoresWell(o) ==> restored && Clean(disk)
    {
      if ConnOk(host, disk, View()) && snapshotTaken && RestoresWell(o) {
        ReleaseGivesBack(host, disk, View(), o);
      }
      if proxySet {
        ghost var t := Release(host, disk, View(), o);
        if tun {
          if !host.dns {
            return false;
          }
          assert t.steps[1] in t.steps;
          Persist(DnsRestore(disk, snapshot.value, o.restoreDns));
          if o.restoreDns.DnsFail? {
            return false;
          }
        } else {
          if !host.proxy {
            return false;
          }
          assert t.steps[1] in t.steps;
          Persist(ProxyRestore(disk, snapshot.value, o.restoreProxy));
          if o.restoreProxy.ProxyFail? {
            return false;
          }
        }
        proxySet := false;
      }
      return true;
    }

    /** cleanupConn. */
    method Cleanup(o: Outcome)
      requires proxySet ==> snapshot.Some?
      modifies this`disk, this`visited, this`proxySet
      ensures var t := Exit(host, old(disk), old(View()), o); View() == t.conn && Followed(old(visited), t.steps)
      ensures old(ConnOk(host, disk, View())) && snapshotTaken && RestoresWell(o) ==>
        Clean(disk) && (o.clears ==> disk.slot.None?)
    {
      var restored := ReleaseProxy(o);
      if restored && snapshotTaken {
        ghost var t := Exit(host, old(disk), old(View()), o);
        assert Last(t.steps) in t.steps;
        Persist(Clear(disk, o.clears));
      }
    }

    /** A promotion that has its snapshot saved, or has none yet, keeps the write-ahead rule at every
      * persistent state it goes through. */
    method Promotion(o: Outcome)
      requires ConnOk(host, disk, View()) && (tun || !(snapshotTaken && disk.slot.None?))
      modifies this
      ensures ConnOk(host, disk, View())
      ensures forall d :: d in visited - old(visited) ==> WriteAhead(host, d)
    {
      if tun {
        ApplyTunnelDnsAhead(host, disk, View(), o);
        ApplyOsDns(o);
      } else {
        ApplyProxyAhead(host, disk, View(), o);
        ApplyOsProxy(o);
      }
    }
  }
}
