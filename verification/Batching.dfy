/**
 Batching without link detection. Keepalives are left to the session keeper, so the interface stores a keepalive of
 zero, and a peer whose contact is judged by three keepalive periods is never in contact.
 */
module Batching {
  import opened Basics
  import opened Peers
  import opened Consolidation
  import opened Endpoints
  import opened Requested
  import opened Cycle

  ghost predicate ZeroKeepalive(ifc: Interface, k: PublicKey) {
    k in ifc ==> ifc[k].keepalive == Some(0)
  }

  /** With a keepalive of zero only link detection can tell that a peer is in contact. */
  lemma ContactNeedsLink(o: Observation)
    requires o.peer.Some? && o.peer.value.keepalive == Some(0)
    ensures InContact(o) <==>
            && o.link == Some(Up) && o.sinceChange.Some?
            && o.sinceRx.Some? && o.sinceRx.value <= SAFETY_SILENCE
  {
  }

  /** A run of ticks with batching on, each with its own inputs; between them the peer's keepalive is left alone. */
  ghost predicate BatchingRun(ts: seq<Tick>, k: PublicKey) {
    && (forall i :: 0 <= i < |ts| ==> ValidTick(ts[i]) && ts[i].features.batching && MeshPeer(ts[i], k))
    && (forall i :: 0 <= i < |ts| - 1 ==> SameKeepalive(After(ts[i]).world.peers, ts[i + 1].before.peers, k))
    && (ts != [] ==> ZeroKeepalive(ts[0].before.peers, k))
  }

  ghost predicate SameKeepalive(a: Interface, b: Interface, k: PublicKey) {
    (k in a <==> k in b) && (k in a ==> a[k].keepalive == b[k].keepalive)
  }

  lemma BatchingTickKeepsZero(t: Tick, k: PublicKey)
    requires ValidTick(t) && t.features.batching && MeshPeer(t, k) && ZeroKeepalive(t.before.peers, k)
    ensures ZeroKeepalive(After(t).world.peers, k)
  {
    hide RequestedPeers, Run, MeshPeer;
    TickKeepalive(t, k);
    RequestWellKeyed(t.wanted, t.sensors, t.features, t.helpers, t.before.peers);
    var done := StateOfRun(PassOf(t), t.before, t.ops);
  }

  /**
   Throughout such a run, at every tick that has no link state for the peer: the peer is not in contact, no upgrade
   request is sent to it, and a completed tick with none received from it leaves it on its first relay address.
   */
  lemma {:induction false} NeverInContact(ts: seq<Tick>, k: PublicKey, n: nat)
    requires BatchingRun(ts, k) && n < |ts|
    ensures ZeroKeepalive(ts[n].before.peers, k)
    ensures k !in ts[n].sensors.links ==>
              && !InContact(ObservationOf(ts[n], k))
              && (forall c :: c in NewUpgrades(ts[n]) ==> c.to != k)
              && (After(ts[n]).Done? && k !in ts[n].sensors.upgradeRequests ==>
                    && k in After(ts[n]).world.peers
                    && After(ts[n]).world.peers[k].endpoint == First(ProxyOf(ts[n].sensors, k)))
  {
    hide After, NewUpgrades, MeshPeer, ValidTick;
    if n > 0 {
      NeverInContact(ts, k, n - 1);
      BatchingTickKeepsZero(ts[n - 1], k);
    }
    if k !in ts[n].sensors.links {
      OutOfContact(ts[n], k);
    }
  }

  lemma OutOfContact(t: Tick, k: PublicKey)
    requires ValidTick(t) && MeshPeer(t, k) && ZeroKeepalive(t.before.peers, k) && k !in t.sensors.links
    ensures !InContact(ObservationOf(t, k))
    ensures forall c :: c in NewUpgrades(t) ==> c.to != k
    ensures After(t).Done? && k !in t.sensors.upgradeRequests ==>
              k in After(t).world.peers && After(t).world.peers[k].endpoint == First(ProxyOf(t.sensors, k))
  {
    hide After, NewUpgrades, RequestedPeers;
    if k in t.before.peers {
      ContactNeedsLink(ObservationOf(t, k));
    }
    forall c | c in NewUpgrades(t)
      ensures c.to != k
    {
      UpgradeIsOwnCheck(t, c);
    }
    if After(t).Done? && k !in t.sensors.upgradeRequests {
      LostContactRelays(t, k);
    }
  }
}
