/** Telling the cross ping check which published endpoints have failed, before and after every pass. */
module Invalidation {
  import opened Basics
  import opened Peers
  import opened Endpoints
  import opened Requested
  import opened Cycle

  /** Published strictly before the last endpoint change, of a peer that is relayed or roamed by itself. */
  predicate Stale(peer: Peer, proxies: EndpointMap, published: Option<Candidate>) {
    && peer.endpointChangedAt.Some? && published.Some?
    && published.value.changedAt < peer.endpointChangedAt.value.0
    && (IsProxying(peer, proxies) || peer.endpointChangedAt.value.1 == Pull)
  }

  function StaleKeys(ifc: Interface, proxies: EndpointMap, checked: map<PublicKey, Candidate>): set<PublicKey> {
    set k | k in ifc && Stale(ifc[k], proxies, Lookup(checked, k))
  }

  class CrossPingCheck {
    var failures: seq<PublicKey>

    constructor ()
      ensures failures == []
    {
      failures := [];
    }

    /** Peers are examined in an order of the map's choosing; `meshnet` is false when proxy or check is not running. */
    method InvalidateEndpoints(meshnet: bool, ifc: Interface, proxies: EndpointMap, checked: map<PublicKey, Candidate>)
      returns (ghost reported: seq<PublicKey>)
      modifies this
      ensures failures == old(failures) + reported
      ensures meshnet ==> Enumerates(reported, StaleKeys(ifc, proxies, checked))
      ensures !meshnet ==> reported == []
    {
      reported := [];
      if !meshnet {
        return;
      }
      var rest := ifc.Keys;
      while rest != {}
        invariant rest <= ifc.Keys
        invariant failures == old(failures) + reported
        invariant Enumerates(reported, StaleKeys(ifc, proxies, checked) - rest)
        decreases rest
      {
        var key :| key in rest;
        var peer := ifc[key];
        var proxying := IsProxying(peer, proxies);
        var invalidate := false;
        if peer.endpointChangedAt.Some? && key in checked {
          var (at, reason) := peer.endpointChangedAt.value;
          var publishedAt := checked[key].changedAt;
          if proxying && publishedAt < at {
            invalidate := true;
          }
          if !proxying && reason == Pull && publishedAt < at {
            invalidate := true;
          }
        }
        ElementsAppend(reported, key);
        if invalidate {
          failures := failures + [key];
          reported := reported + [key];
        }
        rest := rest - {key};
      }
    }
  }

  ghost function StaleAfter(t: Tick): set<PublicKey>
    requires ValidTick(t)
  {
    StaleKeys(After(t).world.peers, t.sensors.proxies, t.sensors.checked)
  }

  /** The tick itself wrote a new endpoint for the peer. */
  ghost predicate WroteEndpoint(t: Tick, k: PublicKey)
    requires ValidTick(t)
  {
    && k in After(t).world.peers
    && After(t).world.peers[k].endpoint != (if k in t.before.peers then t.before.peers[k].endpoint else None)
  }

  lemma WrittenByPush(t: Tick, k: PublicKey)
    requires ValidTick(t) && WroteEndpoint(t, k)
    ensures After(t).world.peers[k].publicKey == k
    ensures After(t).world.peers[k].endpointChangedAt == Some((t.sensors.now, Push))
  {
    RequestWellKeyed(t.wanted, t.sensors, t.features, t.helpers, t.before.peers);
    var done := StateOfRun(PassOf(t), t.before, t.ops);
  }

  /**
   What the invalidation after a pass says about an endpoint that pass wrote: it is reported exactly when it is a
   relay address and the published candidate is older, so downgrades are reported in their own cycle and
   endpoints the controller chose itself are not.
   */
  lemma WrittenEndpointReported(t: Tick, k: PublicKey)
    requires ValidTick(t) && WroteEndpoint(t, k)
    ensures k in StaleAfter(t) <==>
            && IsProxying(After(t).world.peers[k], t.sensors.proxies)
            && k in t.sensors.checked && t.sensors.checked[k].changedAt < t.sensors.now
  {
    WrittenByPush(t, k);
  }

  /** Losing contact on a direct link is reported in the very cycle that falls back to the relay. */
  lemma DowngradeReportedSameCycle(t: Tick, k: PublicKey)
    requires ValidTick(t) && After(t).Done? && MeshPeer(t, k) && k in t.before.peers
    requires !InContact(ObservationOf(t, k)) && k !in t.sensors.upgradeRequests
    requires !Relayed(ObservationOf(t, k)) && ProxyOf(t.sensors, k) != []
    requires k in t.sensors.checked && t.sensors.checked[k].changedAt < t.sensors.now
    ensures k in StaleAfter(t)
  {
    LostContactRelays(t, k);
    assert First(ProxyOf(t.sensors, k)).value in ProxyOf(t.sensors, k);
    assert WroteEndpoint(t, k);
    WrittenByPush(t, k);
    WrittenEndpointReported(t, k);
  }
}
