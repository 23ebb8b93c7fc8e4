/**
 Whole ticks of the controller: a pass whose request is built from what the controller observes. States what
 one tick may do to the endpoint of a meshnet peer, and what a run of ticks keeps.
 */
module Cycle {
  import opened Basics
  import opened Peers
  import opened Consolidation
  import opened Convergence
  import opened Endpoints
  import opened Requested

  /** Everything one tick depends on, its order of operations included. */
  datatype Tick = Tick(
    wanted: Wanted, sensors: Sensors, features: Features, helpers: Helpers, upgradeSync: bool, before: World,
    ops: seq<Op>)

  ghost function PassOf(t: Tick): Pass {
    Pass(t.before.peers, RequestedPeers(t.wanted, t.sensors, t.features, t.helpers, t.before.peers), t.sensors.now,
         t.sensors.proxies, t.features.batching, t.features.ipv6, t.upgradeSync, t.wanted.keepalives.direct)
  }

  ghost predicate ValidTick(t: Tick) {
    WellKeyed(t.before.peers) && ValidSchedule(PassOf(t), t.ops)
  }

  ghost function After(t: Tick): Outcome
    requires ValidTick(t)
  {
    Run(PassOf(t), t.before, t.ops)
  }

  /** Wherever a pass stops, the interface is the one described by the operations it completed. */
  lemma StateOfRun(p: Pass, w: World, ops: seq<Op>) returns (done: set<Op>)
    requires w.peers == p.actual && WellKeyedRequest(p.requested) && ValidSchedule(p, ops)
    ensures done <= PassOps(p)
    ensures Run(p, w, ops).world.peers == PeersAfter(p, done)
    ensures Run(p, w, ops).Done? ==> done == PassOps(p)
  {
    if Run(p, w, ops).Done? {
      RunEffect(p, w, ops);
      done := PassOps(p);
    } else {
      var n := FailurePoint(p, w, ops);
      PrefixOf(ops, n, PassOps(p));
      RunEffect(p, w, ops[..n]);
      done := Elements(ops[..n]);
    }
  }

  /** A peer of the current meshnet configuration whose key no helper peer shares. */
  ghost predicate MeshPeer(t: Tick, k: PublicKey) {
    && t.wanted.config.Some? && t.wanted.config.value.peers.Some?
    && k in ConfiguredKeys(t.wanted.config.value.peers.value)
    && !IsHelperKey(t.wanted, t.helpers, k)
  }

  ghost function ObservationOf(t: Tick, k: PublicKey): Observation {
    Observe(t.wanted, t.sensors, t.before.peers, k)
  }

  ghost function ChoiceOf(t: Tick, k: PublicKey): (Option<SocketAddr>, Option<EndpointState>) {
    Choose(ObservationOf(t, k), Lookup(t.sensors.checked, k), Lookup(t.sensors.upgradeRequests, k))
  }

  lemma MeshChoice(t: Tick, k: PublicKey)
    requires MeshPeer(t, k)
    ensures k in PassOf(t).requested
    ensures PassOf(t).requested[k].peer.publicKey == k
    ensures PassOf(t).requested[k].peer.endpoint == ChoiceOf(t, k).0
    ensures PassOf(t).requested[k].endpoint == ChoiceOf(t, k).1
  {
    ExtendKeeps(MeshPeers(t.wanted, t.sensors, t.features, t.before.peers), t.wanted, t.features, t.helpers, k);
    MeshEndpoint(t.wanted, t.sensors, t.features, t.before.peers, k);
  }

  lemma TickKeepalive(t: Tick, k: PublicKey)
    requires MeshPeer(t, k)
    ensures k in PassOf(t).requested
    ensures var r := PassOf(t).requested[k].peer;
            r.keepalive == RequestedKeepalive(t.wanted, t.sensors, t.features, k, r.endpoint)
  {
    hide RequestedKeepalive;
    MeshKeepalive(t.wanted, t.sensors, t.features, t.before.peers, k);
    ExtendKeeps(MeshPeers(t.wanted, t.sensors, t.features, t.before.peers), t.wanted, t.features, t.helpers, k);
  }

  /** A tick, complete or aborted, leaves a surviving peer's endpoint alone or sets it to the requested one. */
  lemma TickEndpoint(t: Tick, k: PublicKey)
    requires ValidTick(t) && k in t.before.peers && k in PassOf(t).requested
    ensures k in After(t).world.peers
    ensures var a, b, e := t.before.peers[k], After(t).world.peers[k], PassOf(t).requested[k].peer.endpoint;
            || (b.endpoint == a.endpoint && b.endpointChangedAt == a.endpointChangedAt)
            || (a.endpoint != e && b.endpoint == e && b.endpointChangedAt == Some((t.sensors.now, Push)))
    ensures After(t).Done? ==> After(t).world.peers[k].endpoint == PassOf(t).requested[k].peer.endpoint
  {
    hide RequestedPeers;
    RequestWellKeyed(t.wanted, t.sensors, t.features, t.helpers, t.before.peers);
    var done := StateOfRun(PassOf(t), t.before, t.ops);
    assert Delete(k) !in PassOps(PassOf(t)) && Update(k) in PassOps(PassOf(t));
  }

  // ---- Sticky direct links ----

  /** The peer is heard on a direct endpoint at this tick. */
  ghost predicate LiveDirect(t: Tick, k: PublicKey) {
    && MeshPeer(t, k)
    && InContact(ObservationOf(t, k)) && !Relayed(ObservationOf(t, k))
    && t.before.peers[k].endpoint.Some?
  }

  /**
   A run of ticks, each with its own configuration, observations and order. Between ticks anything may happen to the
   peer except that the interface itself moves it to another endpoint.
   */
  ghost predicate UndisturbedRun(ts: seq<Tick>, k: PublicKey) {
    && (forall i :: 0 <= i < |ts| ==> ValidTick(ts[i]) && k in ts[i].before.peers && LiveDirect(ts[i], k))
    && (forall i :: 0 <= i < |ts| - 1 ==>
                      && k in After(ts[i]).world.peers
                      && ts[i + 1].before.peers[k].endpoint == After(ts[i]).world.peers[k].endpoint
                      && ts[i + 1].before.peers[k].endpointChangedAt == After(ts[i]).world.peers[k].endpointChangedAt)
  }

  /**
   As long as a direct link is heard, every tick asks for its current endpoint and none advertises a new one,
   whatever upgrade requests and validated candidates are pending and even if ticks abort.
   */
  lemma {:induction false} DirectLinkSticks(ts: seq<Tick>, k: PublicKey, n: nat)
    requires UndisturbedRun(ts, k) && n < |ts|
    ensures ts[n].before.peers[k].endpoint == ts[0].before.peers[k].endpoint
    ensures ts[n].before.peers[k].endpointChangedAt == ts[0].before.peers[k].endpointChangedAt
    ensures k in PassOf(ts[n]).requested
    ensures PassOf(ts[n]).requested[k].peer.endpoint == ts[0].before.peers[k].endpoint
    ensures PassOf(ts[n]).requested[k].endpoint == None
    ensures k in After(ts[n]).world.peers
    ensures After(ts[n]).world.peers[k].endpoint == ts[0].before.peers[k].endpoint
  {
    hide RequestedPeers, MeshPeer, InContact, Relayed;
    if n > 0 {
      DirectLinkSticks(ts, k, n - 1);
      LiveTickKeeps(ts[n - 1], k);
    }
    LiveTickKeeps(ts[n], k);
  }

  lemma LiveTickKeeps(t: Tick, k: PublicKey)
    requires ValidTick(t) && k in t.before.peers && LiveDirect(t, k)
    ensures k in PassOf(t).requested
    ensures PassOf(t).requested[k].peer.endpoint == t.before.peers[k].endpoint
    ensures PassOf(t).requested[k].endpoint == None
    ensures k in After(t).world.peers
    ensures After(t).world.peers[k].endpoint == t.before.peers[k].endpoint
    ensures After(t).world.peers[k].endpointChangedAt == t.before.peers[k].endpointChangedAt
  {
    hide RequestedPeers;
    MeshChoice(t, k);
    ChoiceRules(ObservationOf(t, k), Lookup(t.sensors.checked, k), Lookup(t.sensors.upgradeRequests, k));
    TickEndpoint(t, k);
  }

  /** A completed tick finding contact lost, with no request from the other side, puts the peer on its first relay. */
  lemma LostContactRelays(t: Tick, k: PublicKey)
    requires ValidTick(t) && After(t).Done? && MeshPeer(t, k)
    requires !InContact(ObservationOf(t, k)) && k !in t.sensors.upgradeRequests
    ensures k in After(t).world.peers
    ensures After(t).world.peers[k].endpoint == First(ProxyOf(t.sensors, k))
    ensures After(t).world.peers[k].endpoint != (if k in t.before.peers then t.before.peers[k].endpoint else None) ==>
              After(t).world.peers[k].endpointChangedAt == Some((t.sensors.now, Push))
  {
    hide RequestedPeers;
    MeshChoice(t, k);
    ChoiceRules(ObservationOf(t, k), Lookup(t.sensors.checked, k), Lookup(t.sensors.upgradeRequests, k));
    RequestWellKeyed(t.wanted, t.sensors, t.features, t.helpers, t.before.peers);
    RunEffect(PassOf(t), t.before, t.ops);
    AllDone(PassOf(t));
  }

  // ---- Upgrade requests ----

  /** The calls a pass adds, in the order of its operations. */
  ghost function UpgradesOf(p: Pass, op: Op): seq<UpgradeCall>
    requires op in PassOps(p)
  {
    if op.Update? then UpgradeRequests(p, p.requested[op.key], p.actual[op.key]) else []
  }

  lemma StepUpgrades(p: Pass, w: World, op: Op)
    requires op in PassOps(p)
    ensures Step(p, w, op).world.upgrades == w.upgrades + if Step(p, w, op).Done? then UpgradesOf(p, op) else []
  {
  }

  /** `c` was added for `k` during the run. */
  lemma {:induction false} RunUpgrades(p: Pass, w: World, ops: seq<Op>, c: UpgradeCall)
    requires Elements(ops) <= PassOps(p) && WellKeyedRequest(p.requested)
    ensures w.upgrades <= Run(p, w, ops).world.upgrades
    ensures c in Run(p, w, ops).world.upgrades[|w.upgrades|..] ==>
              Update(c.to) in ops && Update(c.to) in PassOps(p) && c in UpgradesOf(p, Update(c.to))
    ensures Run(p, w, ops).Done? && Update(c.to) in ops && c in UpgradesOf(p, Update(c.to)) ==>
              c in Run(p, w, ops).world.upgrades[|w.upgrades|..]
  {
    if ops != [] {
      var init, last := ops[..|ops| - 1], ops[|ops| - 1];
      assert ops == init + [last];
      ElementsAppend(init, last);
      RunSnoc(p, w, init, last);
      RunUpgrades(p, w, init, c);
      if Run(p, w, init).Done? {
        var mid := Run(p, w, init).world;
        StepUpgrades(p, mid, last);
        var added := if Step(p, mid, last).Done? then UpgradesOf(p, last) else [];
        assert Run(p, w, ops).world.upgrades[|w.upgrades|..] == mid.upgrades[|w.upgrades|..] + added;
      }
    }
  }

  ghost function NewUpgrades(t: Tick): seq<UpgradeCall>
    requires ValidTick(t)
  {
    if |t.before.upgrades| <= |After(t).world.upgrades| then After(t).world.upgrades[|t.before.upgrades|..] else []
  }

  /** This tick moves `k` off the relay onto an endpoint this side validated itself. */
  ghost predicate StartsUpgrade(t: Tick, k: PublicKey) {
    && t.upgradeSync && k in t.before.peers
    && InContact(ObservationOf(t, k)) && Relayed(ObservationOf(t, k))
    && k !in t.sensors.upgradeRequests
    && k in t.sensors.checked && t.sensors.checked[k].remote.0 !in ProxyOf(t.sensors, k)
  }

  function UpgradeCallFor(k: PublicKey, c: Candidate): UpgradeCall {
    UpgradeCall(k, c.remote, c.local, c.session)
  }

  lemma MeshUpgradeCalls(t: Tick, k: PublicKey)
    requires ValidTick(t) && MeshPeer(t, k) && k in t.before.peers
    ensures Update(k) in PassOps(PassOf(t))
    ensures UpgradesOf(PassOf(t), Update(k)) ==
            if StartsUpgrade(t, k) then [UpgradeCallFor(k, t.sensors.checked[k])] else []
  {
    hide RequestedPeers;
    MeshChoice(t, k);
    ChoiceRules(ObservationOf(t, k), Lookup(t.sensors.checked, k), Lookup(t.sensors.upgradeRequests, k));
  }

  lemma AdvertisedChoice(t: Tick, k: PublicKey)
    requires k in PassOf(t).requested && PassOf(t).requested[k].endpoint.Some?
    ensures PassOf(t).requested[k].peer.endpoint == ChoiceOf(t, k).0
    ensures PassOf(t).requested[k].endpoint == ChoiceOf(t, k).1
  {
    OnlyMeshAdvertises(MeshPeers(t.wanted, t.sensors, t.features, t.before.peers), t.wanted, t.features, t.helpers, k);
    MeshEndpoint(t.wanted, t.sensors, t.features, t.before.peers, k);
  }

  /**
   A tick sends an upgrade request only when it moves a relayed peer to an endpoint this side validated itself, with
   that validation's endpoints and session and nothing pending from or towards the peer.
   */
  lemma UpgradeIsOwnCheck(t: Tick, c: UpgradeCall)
    requires ValidTick(t) && c in NewUpgrades(t)
    ensures StartsUpgrade(t, c.to)
    ensures c == UpgradeCallFor(c.to, t.sensors.checked[c.to])
  {
    hide RequestedPeers;
    RequestWellKeyed(t.wanted, t.sensors, t.features, t.helpers, t.before.peers);
    RunUpgrades(PassOf(t), t.before, t.ops, c);
    var k := c.to;
    AdvertisedChoice(t, k);
    ChoiceRules(ObservationOf(t, k), Lookup(t.sensors.checked, k), Lookup(t.sensors.upgradeRequests, k));
  }

  /** And a completed tick sends one for every meshnet peer it moves that way. */
  lemma UpgradeIsSent(t: Tick, k: PublicKey)
    requires ValidTick(t) && After(t).Done? && MeshPeer(t, k) && StartsUpgrade(t, k)
    ensures UpgradeCallFor(k, t.sensors.checked[k]) in NewUpgrades(t)
  {
    hide RequestedPeers;
    RequestWellKeyed(t.wanted, t.sensors, t.features, t.helpers, t.before.peers);
    MeshUpgradeCalls(t, k);
    assert Update(k) in Elements(t.ops);
    RunUpgrades(PassOf(t), t.before, t.ops, UpgradeCallFor(k, t.sensors.checked[k]));
  }
}
