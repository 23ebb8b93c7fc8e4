/** Which peers a pass hands to the adapter again although nothing about them has changed. */
module Rewriting {
  import opened Basics
  import opened Peers
  import opened WireGuard
  import opened Consolidation
  import opened Convergence
  import opened Deadlocks
  import opened SecondPass
  import opened Endpoints
  import opened Deduplication
  import opened Requested
  import opened Routing
  import opened Cycle
  import opened Settling
  import ExitSwitch

  predicate DnsInUse(w: Wanted, h: Helpers) {
    w.dnsEnabled && h.dns.Some?
  }

  predicate StunInUse(w: Wanted, h: Helpers) {
    w.stunServer.Some? && h.stunActive
  }

  /** The exit node is requested as a peer of its own. */
  ghost predicate ExitAdded(w: Wanted, h: Helpers) {
    w.exitNode.Some? && !ExitConfigured(w) && (h.pqRotating ==> h.pqKeys.Some?)
  }

  ghost predicate MeshConfigured(w: Wanted, k: PublicKey) {
    w.config.Some? && w.config.value.peers.Some? && k in ConfiguredKeys(w.config.value.peers.value)
  }

  /** The endpoint chosen for `k` is one of its relay addresses. */
  ghost predicate ChosenOnRelay(w: Wanted, s: Sensors, ifc: Interface, k: PublicKey) {
    RelayEndpoint(s, k, Choose(Observe(w, s, ifc, k), Lookup(s.checked, k), Lookup(s.upgradeRequests, k)).0)
  }

  /** Batching is off and, if the peer is to be relayed, the relay's keepalive configured and the peer not offline. */
  ghost predicate KeptAlive(w: Wanted, s: Sensors, f: Features, ifc: Interface, k: PublicKey) {
    && !f.batching
    && (ChosenOnRelay(w, s, ifc, k) ==> w.keepalives.proxying.Some? && Lookup(s.online, k) != Some(false))
  }

  /** The keepalive each key is requested with, or none where the key is not requested. */
  lemma KeepaliveOf(w: Wanted, s: Sensors, f: Features, h: Helpers, ifc: Interface, k: PublicKey)
    requires HelperKeysSeparate(w, h)
    ensures var req := RequestedPeers(w, s, f, h, ifc);
            && (DnsInUse(w, h) && k == h.dns.value.0 ==> k in Unset(req))
            && (h.starcast.Some? && k == h.starcast.value.0 ==> k in Unset(req))
            && (StunInUse(w, h) && k == w.stunServer.value.publicKey ==>
                  (k in Unset(req) <==> f.batching || w.keepalives.stun.None?))
            && (ExitAdded(w, h) && k == w.exitNode.value.publicKey ==>
                  (k in Unset(req) <==> f.batching || w.keepalives.vpn.None?))
            && (MeshConfigured(w, k) ==> (k in Unset(req) <==> !KeptAlive(w, s, f, ifc, k)))
            && (k in req ==> || (DnsInUse(w, h) && k == h.dns.value.0)
                             || (h.starcast.Some? && k == h.starcast.value.0)
                             || (StunInUse(w, h) && k == w.stunServer.value.publicKey)
                             || (ExitAdded(w, h) && k == w.exitNode.value.publicKey)
                             || MeshConfigured(w, k))
  {
    hide MeshPeers, Choose, Observe;
    var mesh := MeshPeers(w, s, f, ifc);
    MeshKeys(w, s, f, ifc);
    if MeshConfigured(w, k) {
      MeshEndpoint(w, s, f, ifc, k);
      MeshKeepalive(w, s, f, ifc, k);
      ExtendKeeps(mesh, w, f, h, k);
    } else {
      ExtendedKeepalive(mesh, w, f, h, k);
    }
  }

  lemma ExtendedKeepalive(mesh: Request, w: Wanted, f: Features, h: Helpers, k: PublicKey)
    requires HelperKeysSeparate(w, h) && k !in mesh
    requires w.exitNode.Some? ==> (w.exitNode.value.publicKey in mesh <==> ExitConfigured(w))
    ensures var req := Extend(mesh, w, f, h);
            && (DnsInUse(w, h) && k == h.dns.value.0 ==> k in Unset(req))
            && (h.starcast.Some? && k == h.starcast.value.0 ==> k in Unset(req))
            && (StunInUse(w, h) && k == w.stunServer.value.publicKey ==>
                  (k in Unset(req) <==> f.batching || w.keepalives.stun.None?))
            && (ExitAdded(w, h) && k == w.exitNode.value.publicKey ==>
                  (k in Unset(req) <==> f.batching || w.keepalives.vpn.None?))
            && (k in req ==> || (DnsInUse(w, h) && k == h.dns.value.0)
                             || (h.starcast.Some? && k == h.starcast.value.0)
                             || (StunInUse(w, h) && k == w.stunServer.value.publicKey)
                             || (ExitAdded(w, h) && k == w.exitNode.value.publicKey))
  {
    hide ExitNets, DnsNets, StarcastNets, StunNets, Addresses, ExitConfigured;
    var a := WithExit(mesh, w, f, h);
    var b := WithDns(a, w, h, ExitPromoted(mesh, w));
    var c := WithStarcast(b, f, h);
    assert w.exitNode.Some? ==> !IsHelperKey(w, h, w.exitNode.value.publicKey);
    if !(StunInUse(w, h) && k == w.stunServer.value.publicKey) {
      assert Lookup(WithStun(c, w, f, h), k) == Lookup(c, k);
      if !(h.starcast.Some? && k == h.starcast.value.0) {
        assert Lookup(c, k) == Lookup(b, k);
        if !(DnsInUse(w, h) && k == h.dns.value.0) {
          assert Lookup(b, k) == Lookup(a, k);
        }
      }
    }
  }

  /**
   No peer is requested without a keepalive exactly when neither the DNS nor the starcast peer is in use, batching is
   off as soon as there is any peer, and every keepalive that applies is configured: that of the exit node and of the
   STUN server, and for a relayed meshnet peer that of the relay, provided the peer is not reported offline.
   */
  lemma NothingUnsetIff(w: Wanted, s: Sensors, f: Features, h: Helpers, ifc: Interface)
    requires HelperKeysSeparate(w, h)
    ensures Unset(RequestedPeers(w, s, f, h, ifc)) == {} <==>
            && !DnsInUse(w, h) && h.starcast.None?
            && (StunInUse(w, h) ==> !f.batching && w.keepalives.stun.Some?)
            && (ExitAdded(w, h) ==> !f.batching && w.keepalives.vpn.Some?)
            && (forall k :: MeshConfigured(w, k) ==> KeptAlive(w, s, f, ifc, k))
  {
    hide RequestedPeers, HelperKeysSeparate, KeptAlive, MeshConfigured, ExitAdded;
    var req := RequestedPeers(w, s, f, h, ifc);
    forall k
      ensures MeshConfigured(w, k) ==> (k in Unset(req) <==> !KeptAlive(w, s, f, ifc, k))
    {
      KeepaliveOf(w, s, f, h, ifc, k);
    }
    if DnsInUse(w, h) {
      KeepaliveOf(w, s, f, h, ifc, h.dns.value.0);
    }
    if h.starcast.Some? {
      KeepaliveOf(w, s, f, h, ifc, h.starcast.value.0);
    }
    if StunInUse(w, h) {
      KeepaliveOf(w, s, f, h, ifc, w.stunServer.value.publicKey);
    }
    if ExitAdded(w, h) {
      ExitAddedHas(w, h);
      KeepaliveOf(w, s, f, h, ifc, w.exitNode.value.publicKey);
    }
    forall k | k in Unset(req)
      ensures || (DnsInUse(w, h) && k == h.dns.value.0) || (h.starcast.Some? && k == h.starcast.value.0)
              || (StunInUse(w, h) && k == w.stunServer.value.publicKey)
              || ExitAdded(w, h) || MeshConfigured(w, k)
    {
      KeepaliveOf(w, s, f, h, ifc, k);
    }
    if Unset(req) != {} {
      var k :| k in Unset(req);
      KeepaliveOf(w, s, f, h, ifc, k);
    }
  }

  lemma ExitAddedHas(w: Wanted, h: Helpers)
    requires ExitAdded(w, h)
    ensures w.exitNode.Some?
  {
  }

  /** With batching on, every requested peer is written again at every pass. */
  lemma BatchingUnsetsAll(w: Wanted, s: Sensors, f: Features, h: Helpers, ifc: Interface)
    requires f.batching
    ensures Unset(RequestedPeers(w, s, f, h, ifc)) == RequestedPeers(w, s, f, h, ifc).Keys
  {
    hide Choose, Observe, HostNets, RoutedIps;
    var mesh := MeshPeers(w, s, f, ifc);
    assert AllUnset(mesh);
    var a := WithExit(mesh, w, f, h);
    assert AllUnset(a);
    var b := WithDns(a, w, h, ExitPromoted(mesh, w));
    assert AllUnset(b);
    var c := WithStarcast(b, f, h);
    assert AllUnset(c);
    assert AllUnset(WithStun(c, w, f, h));
  }

  ghost predicate AllUnset(req: Request) {
    forall k :: k in req ==> req[k].peer.keepalive.None?
  }

  // ---- Ticks that move nobody ----

  /** A successful tick on an interface as the adapter keeps it. */
  ghost predicate GoodTick(t: Tick) {
    ValidTick(t) && ValidInterface(t.before.peers) && DisjointRoutes(PassOf(t).requested) && After(t).Done?
  }

  /** The same is wanted, with the same relays and the same reports of who is online. */
  ghost predicate SameSetup(t: Tick, u: Tick) {
    && u.wanted == t.wanted && u.features == t.features && u.helpers == t.helpers
    && u.sensors.proxies == t.sensors.proxies && u.sensors.online == t.sensors.online
  }

  lemma GoodTickConverges(t: Tick)
    requires GoodTick(t)
    ensures Ready(PassOf(t), t.before) && After(t).world.peers == Converged(PassOf(t))
    ensures ValidInterface(After(t).world.peers)
  {
    hide RequestedPeers, Run;
    RequestWellKeyed(t.wanted, t.sensors, t.features, t.helpers, t.before.peers);
    PassConverges(PassOf(t), t.before, t.ops);
  }

  lemma SameRoutesDisjoint(a: Request, b: Request)
    requires SameRequestedRoutes(a, b) && DisjointRoutes(a)
    ensures DisjointRoutes(b)
  {
  }

  lemma UndisturbedValid(a: Interface, b: Interface)
    requires ValidInterface(a) && Undisturbed(a, b)
    ensures ValidInterface(b)
  {
  }

  /** Once a tick has succeeded, the next one wanting the same does too, whatever is observed and in every order. */
  lemma RepetitionSucceeds(t: Tick, u: Tick)
    requires GoodTick(t) && ValidTick(u) && SameSetup(t, u) && Undisturbed(After(t).world.peers, u.before.peers)
    ensures GoodTick(u)
  {
    hide RequestedPeers, Run, PassOps, ValidInterface;
    var p, q := PassOf(t), PassOf(u);
    GoodTickConverges(t);
    UndisturbedValid(After(t).world.peers, u.before.peers);
    ExitSwitch.RoutesIgnoreObservations(t, u);
    SameRoutesDisjoint(p.requested, q.requested);
    RequestWellKeyed(u.wanted, u.sensors, u.features, u.helpers, u.before.peers);
    NothingMoves(p, q);
    EveryOrderSucceedsIff(q, u.before);
  }

  lemma NothingMoves(p: Pass, q: Pass)
    requires Undisturbed(Converged(p), q.actual) && SameRequestedRoutes(p.requested, q.requested)
    requires DisjointRoutes(q.requested)
    ensures NoMovedAddress(q)
  {
    hide Overlap;
    forall j | j in q.actual && j in q.requested
      ensures q.actual[j].allowedIps == q.requested[j].peer.allowedIps
    {
    }
    assert forall j, k :: !Moves(q, j, k);
  }

  /** With the same setup, the peer requested is decided by the endpoint chosen for it. */
  lemma SameEndpointSamePeer(t: Tick, u: Tick, k: PublicKey)
    requires SameSetup(t, u) && MeshPeer(t, k) && ChoiceOf(t, k).0 == ChoiceOf(u, k).0
    ensures k in PassOf(t).requested && k in PassOf(u).requested
    ensures PassOf(t).requested[k].peer == PassOf(u).requested[k].peer
  {
    hide MeshPeers, Extend, Choose, Observe;
    var w, f, h := t.wanted, t.features, t.helpers;
    MeshKeys(w, t.sensors, f, t.before.peers);
    SameEndpointSameMesh(w, t.sensors, u.sensors, f, t.before.peers, u.before.peers, k);
    ExtendSame(MeshPeers(w, t.sensors, f, t.before.peers), MeshPeers(w, u.sensors, f, u.before.peers), w, f, h, k);
  }

  lemma SameEndpointSameMesh(
      w: Wanted, s: Sensors, s': Sensors, f: Features, a: Interface, b: Interface, k: PublicKey)
    requires k in MeshPeers(w, s, f, a) && s'.proxies == s.proxies && s'.online == s.online
    requires Choose(Observe(w, s, a, k), Lookup(s.checked, k), Lookup(s.upgradeRequests, k)).0 ==
             Choose(Observe(w, s', b, k), Lookup(s'.checked, k), Lookup(s'.upgradeRequests, k)).0
    ensures k in MeshPeers(w, s', f, b) && MeshPeers(w, s, f, a)[k].peer == MeshPeers(w, s', f, b)[k].peer
  {
    hide Choose, Observe, RoutedIps, HostNets, Finish;
    var peers := w.config.value.peers.value;
    var ips := RoutedIps(peers, Assign(ClaimOrder(peers)), k);
    assert BasePeer(w, s, f, k, ips) == BasePeer(w, s', f, k, ips);
    SameEndpointSameFinish(w, s, s', f, a, b, BasePeer(w, s, f, k, ips));
  }

  lemma SameEndpointSameFinish(
      w: Wanted, s: Sensors, s': Sensors, f: Features, a: Interface, b: Interface, r: RequestedPeer)
    requires s'.proxies == s.proxies && s'.online == s.online
    requires var k := r.peer.publicKey;
             Choose(Observe(w, s, a, k), Lookup(s.checked, k), Lookup(s.upgradeRequests, k)).0 ==
             Choose(Observe(w, s', b, k), Lookup(s'.checked, k), Lookup(s'.upgradeRequests, k)).0
    ensures Finish(w, s, f, a, r).peer == Finish(w, s', f, b, r).peer
  {
    hide Choose, Observe;
  }

  lemma ExtendSame(a: Request, b: Request, w: Wanted, f: Features, h: Helpers, k: PublicKey)
    requires !IsHelperKey(w, h, k) && k in a && k in b && a[k].peer == b[k].peer
    ensures k in Extend(a, w, f, h) && k in Extend(b, w, f, h)
    ensures Extend(a, w, f, h)[k].peer == Extend(b, w, f, h)[k].peer
  {
    HelpersKeep(WithExit(a, w, f, h), w, f, h, ExitPromoted(a, w), k);
    HelpersKeep(WithExit(b, w, f, h), w, f, h, ExitPromoted(b, w), k);
  }

  /** Everything but the meshnet peers is requested without looking at the interface. */
  lemma OthersSame(a: Request, b: Request, w: Wanted, f: Features, h: Helpers, k: PublicKey)
    requires a.Keys == b.Keys && k !in a
    ensures Lookup(Extend(a, w, f, h), k) == Lookup(Extend(b, w, f, h), k)
  {
    var promoted := ExitPromoted(a, w);
    var a1, b1 := WithExit(a, w, f, h), WithExit(b, w, f, h);
    assert Lookup(a1, k) == Lookup(b1, k);
    var a2, b2 := WithDns(a1, w, h, promoted), WithDns(b1, w, h, promoted);
    assert Lookup(a2, k) == Lookup(b2, k);
    assert Lookup(WithStarcast(a2, f, h), k) == Lookup(WithStarcast(b2, f, h), k);
  }

  lemma OthersRequestedAlike(t: Tick, u: Tick, k: PublicKey)
    requires SameSetup(t, u) && HelperKeysSeparate(t.wanted, t.helpers) && !MeshPeer(t, k)
    ensures Lookup(PassOf(t).requested, k) == Lookup(PassOf(u).requested, k)
  {
    hide MeshPeers, Extend;
    var w, f, h := t.wanted, t.features, t.helpers;
    var a, b := MeshPeers(w, t.sensors, f, t.before.peers), MeshPeers(w, u.sensors, f, u.before.peers);
    MeshKeys(w, t.sensors, f, t.before.peers);
    MeshKeys(w, u.sensors, f, u.before.peers);
    assert a.Keys == b.Keys;
    OthersSame(a, b, w, f, h, k);
  }

  ghost predicate MovesNobody(u: Tick)
    requires ValidTick(u)
  {
    forall k :: MeshPeer(u, k) ==> !MovedBy(u, k)
  }

  /** A tick that moves nobody requests the same peers as the one before it. */
  lemma UnmovedRequestsSame(t: Tick, u: Tick)
    requires GoodTick(t) && GoodTick(u) && SameSetup(t, u) && Undisturbed(After(t).world.peers, u.before.peers)
    requires HelperKeysSeparate(t.wanted, t.helpers) && MovesNobody(u)
    ensures SamePeers(PassOf(t).requested, PassOf(u).requested)
  {
    hide PassOf, MeshPeer, GoodTick, SameSetup, HelperKeysSeparate, Run;
    var a, b := PassOf(t).requested, PassOf(u).requested;
    forall k
      ensures k in a <==> k in b
      ensures k in a ==> b[k].peer == a[k].peer
    {
      if MeshPeer(t, k) {
        UnmovedPeerSame(t, u, k);
      } else {
        OthersRequestedAlike(t, u, k);
      }
    }
  }

  lemma UnmovedPeerSame(t: Tick, u: Tick, k: PublicKey)
    requires GoodTick(t) && GoodTick(u) && SameSetup(t, u) && Undisturbed(After(t).world.peers, u.before.peers)
    requires MeshPeer(t, k) && MovesNobody(u)
    ensures k in PassOf(t).requested && k in PassOf(u).requested
    ensures PassOf(t).requested[k].peer == PassOf(u).requested[k].peer
  {
    hide RequestedPeers, Run, ChoiceOf;
    assert MeshPeer(u, k);
    MeshChoice(t, k);
    MeshChoice(u, k);
    GoodTickConverges(t);
    GoodTickConverges(u);
    AgreesIffKeepaliveSet(PassOf(t), k);
    AgreesIffKeepaliveSet(PassOf(u), k);
    assert !MovedBy(u, k);
    SameEndpointSamePeer(t, u, k);
  }

  /**
   After a successful tick, the next one wanting the same succeeds; if it moves nobody, it leaves the interface as it
   is, and calls the adapter at all exactly when some peer is requested without a keepalive.
   */
  lemma UnmovedTickSilentIff(t: Tick, u: Tick)
    requires GoodTick(t) && ValidTick(u) && SameSetup(t, u) && Undisturbed(After(t).world.peers, u.before.peers)
    requires HelperKeysSeparate(t.wanted, t.helpers) && MovesNobody(u)
    ensures After(u).Done? && After(u).world.peers == u.before.peers
    ensures After(u).world.calls == u.before.calls <==> Unset(PassOf(u).requested) == {}
  {
    hide RequestedPeers, Run, PassOps, SamePeers, Undisturbed, HelperKeysSeparate, MovesNobody;
    RepetitionSucceeds(t, u);
    UnmovedRequestsSame(t, u);
    GoodTickConverges(t);
    GoodTickConverges(u);
    SecondPass.SecondPass(PassOf(t), PassOf(u), u.before, u.ops);
    SecondPassSilentIff(PassOf(t), PassOf(u), u.before, u.ops);
    UnsetAlike(PassOf(t).requested, PassOf(u).requested);
  }

  lemma UnsetAlike(a: Request, b: Request)
    requires SamePeers(a, b)
    ensures Unset(b) == {} <==> forall k :: k in a ==> a[k].peer.keepalive.Some?
  {
    assert Unset(b) == {} <==> forall k :: k in b ==> k !in Unset(b);
  }
}
