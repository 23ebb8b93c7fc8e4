/**
 How often the controller moves a peer. A candidate that failed is withdrawn in the cycle that falls back to the relay,
 so in every run the moves of a peer are bounded by the news about it: candidates, requests, relays, roaming.
 */
module Settling {
  import opened Basics
  import opened Peers
  import opened Consolidation
  import opened Convergence
  import opened Deadlocks
  import opened Endpoints
  import opened Deduplication
  import opened Requested
  import opened Cycle
  import opened Invalidation

  function EndpointIn(ifc: Interface, k: PublicKey): Option<SocketAddr> {
    if k in ifc then ifc[k].endpoint else None
  }

  /** The tick, complete or aborted, changed the endpoint of `k`. */
  ghost predicate MovedBy(t: Tick, k: PublicKey)
    requires ValidTick(t)
  {
    EndpointIn(After(t).world.peers, k) != EndpointIn(t.before.peers, k)
  }

  /** A tick moves a meshnet peer only to the endpoint it chose, and stamps the move as its own. */
  lemma TickMoves(t: Tick, k: PublicKey)
    requires ValidTick(t) && MeshPeer(t, k) && MovedBy(t, k)
    ensures k in After(t).world.peers
    ensures var b := After(t).world.peers[k];
            b.publicKey == k && b.endpoint == ChoiceOf(t, k).0 && b.endpointChangedAt == Some((t.sensors.now, Push))
  {
    hide RequestedPeers, Run, ChoiceOf;
    MeshChoice(t, k);
    RequestWellKeyed(t.wanted, t.sensors, t.features, t.helpers, t.before.peers);
    var done := StateOfRun(PassOf(t), t.before, t.ops);
    assert Delete(k) !in PassOps(PassOf(t));
  }

  /** What a tick may choose for a peer. */
  lemma ChoiceCases(t: Tick, k: PublicKey)
    ensures var e, choice := EndpointIn(t.before.peers, k), ChoiceOf(t, k).0;
            var proxy, request := ProxyOf(t.sensors, k), Lookup(t.sensors.upgradeRequests, k);
            var relayed := e.Some? && e.value in proxy;
            if request.Some? then choice == request || (choice == e && !relayed)
            else
              || choice == First(proxy)
              || (choice == e && !relayed)
              || (relayed && k in t.sensors.checked && choice == Some(t.sensors.checked[k].remote.0))
  {
  }

  // ---- News ----

  /** Candidates are read after they were published. */
  ghost predicate Fresh(t: Tick, k: PublicKey) {
    k in t.sensors.checked ==> t.sensors.checked[k].changedAt < t.sensors.now
  }

  /**
   The tick after `t` finds nothing about `k` that `t` and the invalidation after it did not bring about: the endpoint
   is as `t` left it, the relay addresses are the same, the candidate is the same unless withdrawn, and a pending
   upgrade request is the same, has lapsed, or is the one `t` itself sent. What is heard from the peer may be anything.
   */
  ghost predicate Quiet(t: Tick, u: Tick, k: PublicKey)
    requires ValidTick(t)
  {
    var after := After(t).world.peers;
    && ProxyOf(u.sensors, k) == ProxyOf(t.sensors, k)
    && EndpointIn(u.before.peers, k) == EndpointIn(after, k)
    && (k in u.sensors.checked ==>
          k in t.sensors.checked && u.sensors.checked[k] == t.sensors.checked[k] && k !in StaleAfter(t))
    && (k in u.sensors.upgradeRequests ==>
          || Lookup(t.sensors.upgradeRequests, k) == Some(u.sensors.upgradeRequests[k])
          || exists c :: c in NewUpgrades(t) && c.to == k && u.sensors.upgradeRequests[k] == c.remote.0)
  }

  /** A request is only sent together with the move it announces, even if the pass is aborted later. */
  lemma SentMeansMoved(t: Tick, c: UpgradeCall)
    requires ValidTick(t) && c in NewUpgrades(t) && MeshPeer(t, c.to)
    ensures EndpointIn(After(t).world.peers, c.to) == Some(c.remote.0) && MovedBy(t, c.to)
  {
    hide RequestedPeers, Run, MeshPeer;
    var p, k := PassOf(t), c.to;
    RequestWellKeyed(t.wanted, t.sensors, t.features, t.helpers, t.before.peers);
    UpgradeIsOwnCheck(t, c);
    MeshChoice(t, k);
    ChoiceRules(ObservationOf(t, k), Lookup(t.sensors.checked, k), Lookup(t.sensors.upgradeRequests, k));
    var done := UpgradeReached(p, t.before, t.ops, c);
    assert Delete(k) !in PassOps(p) && Insert(k) !in PassOps(p);
  }

  lemma UpgradeReached(p: Pass, w: World, ops: seq<Op>, c: UpgradeCall) returns (done: set<Op>)
    requires w.peers == p.actual && WellKeyedRequest(p.requested) && ValidSchedule(p, ops)
    requires |w.upgrades| <= |Run(p, w, ops).world.upgrades| && c in Run(p, w, ops).world.upgrades[|w.upgrades|..]
    ensures done <= PassOps(p) && Update(c.to) in done
    ensures Run(p, w, ops).world.peers == PeersAfter(p, done)
  {
    hide Run, PeersAfter;
    if Run(p, w, ops).Done? {
      RunEffect(p, w, ops);
      RunUpgrades(p, w, ops, c);
      done := PassOps(p);
    } else {
      var n := FailurePoint(p, w, ops);
      PrefixOf(ops, n, PassOps(p));
      RunEffect(p, w, ops[..n]);
      RunUpgrades(p, w, ops[..n], c);
      done := Elements(ops[..n]);
    }
  }

  // ---- Moves ----

  /** How often the peer can still be moved without news. */
  ghost function Potential(t: Tick, k: PublicKey): nat {
    var e, proxy, request :=
      EndpointIn(t.before.peers, k), ProxyOf(t.sensors, k), Lookup(t.sensors.upgradeRequests, k);
    if request.Some? && e != request then 2
    else if k in t.sensors.checked && e.Some? && e.value in proxy then 2
    else if e == First(proxy) then 0
    else 1
  }

  lemma MoveNeedsPotential(t: Tick, k: PublicKey)
    requires ValidTick(t) && MeshPeer(t, k) && MovedBy(t, k)
    ensures Potential(t, k) > 0
  {
    hide After, ChoiceOf, MeshPeer;
    TickMoves(t, k);
    ChoiceCases(t, k);
  }

  /** A peer moved to a relay address has its candidate withdrawn. */
  lemma RelayWithdraws(t: Tick, k: PublicKey)
    requires ValidTick(t) && MeshPeer(t, k) && MovedBy(t, k) && Fresh(t, k) && k in t.sensors.checked
    ensures var e := EndpointIn(After(t).world.peers, k);
            e.Some? && e.value in ProxyOf(t.sensors, k) ==> k in StaleAfter(t)
  {
    hide After, ChoiceOf, MeshPeer;
    TickMoves(t, k);
  }

  /** Without news the potential never grows, and every move uses some of it up. */
  lemma PotentialFalls(t: Tick, u: Tick, k: PublicKey)
    requires ValidTick(t) && MeshPeer(t, k) && Fresh(t, k) && Quiet(t, u, k)
    ensures Potential(u, k) + (if MovedBy(t, k) then 1 else 0) <= Potential(t, k)
  {
    hide After, ChoiceOf, MeshPeer, NewUpgrades, StaleAfter;
    var proxy, after := ProxyOf(t.sensors, k), EndpointIn(After(t).world.peers, k);
    if proxy != [] {
      assert proxy[0] in proxy;
    }
    if k in u.sensors.upgradeRequests && Lookup(t.sensors.upgradeRequests, k) != Some(u.sensors.upgradeRequests[k]) {
      var c :| c in NewUpgrades(t) && c.to == k && u.sensors.upgradeRequests[k] == c.remote.0;
      SentMeansMoved(t, c);
      UpgradeIsOwnCheck(t, c);
    }
    if MovedBy(t, k) {
      TickMoves(t, k);
      ChoiceCases(t, k);
      if k in t.sensors.checked {
        RelayWithdraws(t, k);
      }
    }
  }

  /** A run of ticks about one meshnet peer, each with its own configuration, observations and order. */
  ghost predicate PeerRun(ts: seq<Tick>, k: PublicKey) {
    forall i :: 0 <= i < |ts| ==> ValidTick(ts[i]) && MeshPeer(ts[i], k) && Fresh(ts[i], k)
  }

  /** The number of the first `n` ticks that moved the peer. */
  ghost function MoveCount(ts: seq<Tick>, k: PublicKey, n: nat): nat
    requires PeerRun(ts, k) && n <= |ts|
  {
    if n == 0 then 0 else MoveCount(ts, k, n - 1) + if MovedBy(ts[n - 1], k) then 1 else 0
  }

  /** The number of the first `n` ticks that were followed by news. */
  ghost function NewsCount(ts: seq<Tick>, k: PublicKey, n: nat): nat
    requires PeerRun(ts, k) && n < |ts|
  {
    if n == 0 then 0 else NewsCount(ts, k, n - 1) + if Quiet(ts[n - 1], ts[n], k) then 0 else 1
  }

  lemma {:induction false} MovesSoFar(ts: seq<Tick>, k: PublicKey, n: nat)
    requires PeerRun(ts, k) && n < |ts|
    ensures MoveCount(ts, k, n) + Potential(ts[n], k) <= Potential(ts[0], k) + 2 * NewsCount(ts, k, n)
  {
    hide ValidTick, MeshPeer, Fresh, Quiet, MovedBy, Potential;
    if n > 0 {
      MovesSoFar(ts, k, n - 1);
      PotentialBound(ts[n], k);
      if Quiet(ts[n - 1], ts[n], k) {
        PotentialFalls(ts[n - 1], ts[n], k);
      } else if MovedBy(ts[n - 1], k) {
        MoveNeedsPotential(ts[n - 1], k);
      }
    }
  }

  lemma PotentialBound(t: Tick, k: PublicKey)
    ensures Potential(t, k) <= 2
  {
  }

  /**
   In every run the controller moves a peer at most twice, and at most twice more for every piece of news, whatever is
   heard from the peer or not and however many ticks there are, aborted ones included.
   */
  lemma MovesBounded(ts: seq<Tick>, k: PublicKey)
    requires PeerRun(ts, k) && ts != []
    ensures MoveCount(ts, k, |ts|) <= Potential(ts[0], k) + 2 * NewsCount(ts, k, |ts| - 1)
    ensures Potential(ts[0], k) <= 2
  {
    hide ValidTick, MeshPeer, Fresh, MovedBy, Potential;
    PotentialBound(ts[0], k);
    MovesSoFar(ts, k, |ts| - 1);
    if MovedBy(ts[|ts| - 1], k) {
      MoveNeedsPotential(ts[|ts| - 1], k);
    }
  }

  // ---- A peer that is moved twice ----

  const RELAY: SocketAddr := SocketAddr(V4(1), 1)
  const DIRECT: SocketAddr := SocketAddr(V4(2), 2)

  /** A peer with one candidate, heard twenty seconds ago or reported as down. */
  function SampleTick(heard: bool, before: World, ops: seq<Op>): Tick {
    var peer := ConfigPeer(1, "a.nord", None, Some([V4(3)]), true, false, false, false, false);
    var config := Config("b.nord", None, None, Some([peer]));
    Tick(Wanted(Some(config), None, false, None, Keepalives(None, 5, Some(25), None)),
         Sensors(1, map[1 := [RELAY]], map[1 := Candidate((DIRECT, Local), (DIRECT, Local), 0, 0)], map[],
                 map[1 := 20 * SECOND], if heard then map[] else map[1 := Down], map[]),
         Features(false, false), Helpers(false, None, None, None, false), false, before, ops)
  }

  /** The peer is relayed. */
  function SampleWorld(): World {
    World(map[1 := Peer(1, Some(RELAY), Some((0, Push)), [V4(3)], Some(25), [IpNet(V4(3), 32)], None, None)],
          None, [], [])
  }

  lemma SampleMesh(heard: bool, before: World, ops: seq<Op>)
    ensures var t := SampleTick(heard, before, ops);
            MeshPeer(t, 1) && Fresh(t, 1) && PassOf(t).requested.Keys == {1} && WellKeyedRequest(PassOf(t).requested)
  {
    var t := SampleTick(heard, before, ops);
    var peers := t.wanted.config.value.peers.value;
    assert peers[0].publicKey == 1 && ConfiguredKeys(peers) == {1};
    RequestWellKeyed(t.wanted, t.sensors, t.features, t.helpers, before.peers);
  }

  /** With a single peer every order succeeds. */
  lemma SampleSucceeds(heard: bool, before: World) returns (t: Tick)
    requires before.peers.Keys == {1} && WellKeyed(before.peers)
    ensures ValidTick(t) && t == SampleTick(heard, before, t.ops) && After(t).Done?
    ensures MeshPeer(t, 1) && Fresh(t, 1) && After(t).world.peers.Keys == {1} && WellKeyed(After(t).world.peers)
    ensures After(t).world.peers[1].endpoint == ChoiceOf(t, 1).0
  {
    hide RequestedPeers, Run, PassOps, ChoiceOf, MeshPeer, SampleTick;
    var ops := PhasedEnumeration(PassOps(PassOf(SampleTick(heard, before, []))));
    t := SampleTick(heard, before, ops);
    SampleSame(heard, before, ops);
    SampleMesh(heard, before, ops);
    EveryOrderSucceedsIff(PassOf(t), before);
    PassConverges(PassOf(t), before, ops);
    MeshChoice(t, 1);
    TickEndpoint(t, 1);
  }

  lemma SampleSame(heard: bool, before: World, ops: seq<Op>)
    ensures PassOf(SampleTick(heard, before, ops)) == PassOf(SampleTick(heard, before, []))
    ensures SampleTick(heard, before, ops).before == before && SampleTick(heard, before, ops).ops == ops
  {
  }

  /** The bound is met: a relayed peer is moved to its candidate, then back, without any news in between. */
  lemma MovesTwice() returns (ts: seq<Tick>)
    ensures PeerRun(ts, 1) && |ts| == 2 && Quiet(ts[0], ts[1], 1)
    ensures MoveCount(ts, 1, 2) == 2 && NewsCount(ts, 1, 1) == 0
  {
    hide RequestedPeers, Run, PassOps, MeshPeer;
    var t := SampleSucceeds(true, SampleWorld());
    assert ChoiceOf(t, 1).0 == Some(DIRECT);
    var u := SampleSucceeds(false, After(t).world);
    assert ChoiceOf(u, 1).0 == Some(RELAY);
    assert MovedBy(t, 1) && MovedBy(u, 1);
    WrittenByPush(t, 1);
    ts := [t, u];
    assert MoveCount(ts, 1, 1) == 1;
  }
}
