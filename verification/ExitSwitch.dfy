/**
 Switching the exit node from a meshnet peer to a VPN server without disconnecting first. The meshnet peer still
 holds the default route while the VPN peer is inserted, so the switch can never be carried out.
 */
module ExitSwitch {
  import opened Basics
  import opened Peers
  import opened Consolidation
  import opened Convergence
  import opened Deadlocks
  import opened Routing
  import opened Deduplication
  import opened Requested
  import opened Cycle

  const DEFAULT_V4: IpNet := IpNet(V4(0), 0)

  /** A meshnet peer holds the default route, and the wanted exit node is a VPN server not on the interface yet. */
  ghost predicate Switching(t: Tick, mesh: PublicKey) {
    && ValidTick(t) && DisjointRoutes(PassOf(t).requested)
    && MeshPeer(t, mesh) && mesh in t.before.peers && DEFAULT_V4 in t.before.peers[mesh].allowedIps
    && t.wanted.exitNode.Some? && t.wanted.exitNode.value.allowedIps.None?
    && var vpn := t.wanted.exitNode.value.publicKey;
    && vpn !in ConfiguredKeys(t.wanted.config.value.peers.value)
    && !IsHelperKey(t.wanted, t.helpers, vpn) && vpn !in t.before.peers
    && (t.helpers.pqRotating ==> t.helpers.pqKeys.Some?)
  }

  lemma VpnRequested(t: Tick, mesh: PublicKey)
    requires Switching(t, mesh)
    ensures t.wanted.exitNode.value.publicKey in PassOf(t).requested
    ensures DEFAULT_V4 in PassOf(t).requested[t.wanted.exitNode.value.publicKey].peer.allowedIps
  {
    hide MeshPeers;
    var w, f, h := t.wanted, t.features, t.helpers;
    var vpn := w.exitNode.value.publicKey;
    var peers := MeshPeers(w, t.sensors, f, t.before.peers);
    assert vpn !in peers by {
      NotInMesh(t, vpn);
    }
    HelpersKeep(WithExit(peers, w, f, h), w, f, h, ExitPromoted(peers, w), vpn);
    FilterFamilyMeaning(DefaultRoutes(), f.ipv6, DEFAULT_V4);
  }

  lemma NotInMesh(t: Tick, k: PublicKey)
    requires t.wanted.config.Some? && t.wanted.config.value.peers.Some?
    requires k !in ConfiguredKeys(t.wanted.config.value.peers.value)
    ensures k !in MeshPeers(t.wanted, t.sensors, t.features, t.before.peers)
  {
  }

  lemma SwitchDeadlocks(t: Tick, mesh: PublicKey)
    requires Switching(t, mesh)
    ensures Ready(PassOf(t), t.before)
    ensures Holds(t.before.peers, PassOf(t).requested, mesh, t.wanted.exitNode.value.publicKey)
    ensures Deadlocked(t.before.peers, PassOf(t).requested, {t.wanted.exitNode.value.publicKey})
    ensures After(t).Failed?
  {
    hide RequestedPeers;
    var vpn := t.wanted.exitNode.value.publicKey;
    VpnRequested(t, mesh);
    MeshChoice(t, mesh);
    RequestWellKeyed(t.wanted, t.sensors, t.features, t.helpers, t.before.peers);
    var nets := PassOf(t).requested[vpn].peer.allowedIps;
    var i :| 0 <= i < |nets| && nets[i] == DEFAULT_V4;
    assert nets[i] in t.before.peers[mesh].allowedIps;
    InsertionDeadlocks(t.before.peers, PassOf(t).requested, mesh, vpn);
    DeadlockedPassFails(PassOf(t), t.before, t.ops, {vpn});
  }

  /** Ticks wanting the same thing; observations, orders and anything but the routes may differ. */
  ghost predicate RepeatedTicks(ts: seq<Tick>) {
    && (forall i :: 0 <= i < |ts| ==> ValidTick(ts[i]))
    && (forall i :: 0 <= i < |ts| - 1 ==>
                      && SameRoutes(After(ts[i]).world.peers, ts[i + 1].before.peers)
                      && ts[i + 1].wanted == ts[i].wanted && ts[i + 1].features == ts[i].features
                      && ts[i + 1].helpers == ts[i].helpers)
  }

  /** The routes asked for do not depend on what the controller observes. */
  lemma RoutesIgnoreObservations(t: Tick, u: Tick)
    requires t.wanted == u.wanted && t.features == u.features && t.helpers == u.helpers
    ensures SameRequestedRoutes(PassOf(t).requested, PassOf(u).requested)
  {
    var a := MeshPeers(t.wanted, t.sensors, t.features, t.before.peers);
    var b := MeshPeers(u.wanted, u.sensors, u.features, u.before.peers);
    assert a.Keys == b.Keys;
    forall k | k in a
      ensures a[k].peer.allowedIps == b[k].peer.allowedIps
    {
      MeshNets(t.wanted, t.sensors, t.features, t.before.peers, k);
      MeshNets(u.wanted, u.sensors, u.features, u.before.peers, k);
    }
    ExtendRoutes(a, b, t.wanted, t.features, t.helpers);
  }

  lemma ExtendRoutes(a: Request, b: Request, w: Wanted, f: Features, h: Helpers)
    requires SameRequestedRoutes(a, b)
    ensures SameRequestedRoutes(Extend(a, w, f, h), Extend(b, w, f, h))
  {
    var promoted := ExitPromoted(a, w);
    var a1, b1 := WithExit(a, w, f, h), WithExit(b, w, f, h);
    assert SameRequestedRoutes(a1, b1);
    var a2, b2 := WithDns(a1, w, h, promoted), WithDns(b1, w, h, promoted);
    assert SameRequestedRoutes(a2, b2);
    assert SameRequestedRoutes(WithStarcast(a2, f, h), WithStarcast(b2, f, h));
  }

  /** However often the controller retries the switch, and whatever it observes meanwhile, no tick succeeds. */
  lemma {:induction false} SwitchNeverSucceeds(ts: seq<Tick>, mesh: PublicKey, n: nat)
    requires RepeatedTicks(ts) && n < |ts| && Switching(ts[0], mesh)
    ensures Switching(ts[n], mesh) && After(ts[n]).Failed?
  {
    if n > 0 {
      SwitchNeverSucceeds(ts, mesh, n - 1);
      SwitchDeadlocks(ts[n - 1], mesh);
      SwitchPersists(ts[n - 1], ts[n], mesh);
    }
    SwitchDeadlocks(ts[n], mesh);
  }

  lemma SwitchPersists(t: Tick, u: Tick, mesh: PublicKey)
    requires Switching(t, mesh) && ValidTick(u)
    requires SameRoutes(After(t).world.peers, u.before.peers)
    requires u.wanted == t.wanted && u.features == t.features && u.helpers == t.helpers
    ensures Switching(u, mesh)
  {
    hide RequestedPeers;
    var p, vpn := PassOf(t), t.wanted.exitNode.value.publicKey;
    RoutesIgnoreObservations(t, u);
    SwitchDeadlocks(t, mesh);
    VpnRequested(t, mesh);
    MeshChoice(t, mesh);
    DeadlockIsStuck(p, {vpn});
    assert Moves(p, mesh, vpn);
    StuckFails(p, t.before, t.ops, {vpn});
  }

  // ---- Such a switch ----

  function SwitchWanted(): Wanted {
    var peer := ConfigPeer(1, "a.nord", None, Some([V4(1)]), true, false, false, false, false);
    Wanted(Some(Config("b.nord", None, None, Some([peer]))), Some(ExitNode("vpn", 2, None, None)), false, None,
           Keepalives(None, 5, Some(25), None))
  }

  function SwitchTick(ops: seq<Op>): Tick {
    Tick(SwitchWanted(), Sensors(0, map[], map[], map[], map[], map[], map[]), Features(false, false),
         Helpers(false, None, None, None, false), false,
         World(map[1 := Peer(1, None, None, [], Some(25), [DEFAULT_V4], None, None)], None, [], []), ops)
  }

  /** The only meshnet peer is the exit node on the interface, and a VPN server is asked for. */
  lemma SwitchHappens() returns (t: Tick)
    ensures Switching(t, 1)
  {
    var t0 := SwitchTick([]);
    var ops := PhasedEnumeration(PassOps(PassOf(t0)));
    t := SwitchTick(ops);
    var peers := t.wanted.config.value.peers.value;
    assert peers[0].publicKey == 1 && ConfiguredKeys(peers) == {1};
    DefaultExitRoutesDisjoint(t.wanted, t.sensors, t.features, t.helpers, t.before.peers);
    assert [DEFAULT_V4][0] == DEFAULT_V4;
  }
}
