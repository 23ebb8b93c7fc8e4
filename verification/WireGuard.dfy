/**
 The WireGuard adapter task: a map of peers with `add_peer` and `del_peer`. `add_peer` refuses a peer
 whose allowed networks another peer already holds, turns a missing keepalive into zero, and stamps
 the endpoint change time itself.
 */
module WireGuard {
  import opened Basics
  import opened Peers

  /** Some other peer of the interface already routes one of the candidate's networks. */
  predicate Blocked(ifc: Interface, p: Peer) {
    exists k :: k in ifc && ifc[k].publicKey != p.publicKey && Overlap(p.allowedIps, ifc[k].allowedIps)
  }

  /** The record `add_peer` leaves behind for `p`. */
  function Stored(ifc: Interface, now: Instant, p: Peer): Peer {
    var prev := Lookup(ifc, p.publicKey);
    var oldEndpoint := if prev.Some? then prev.value.endpoint else None;
    var oldChange := if prev.Some? then prev.value.endpointChangedAt else None;
    p.(keepalive := Some(p.keepalive.GetOr(0)),
       sinceHandshake := if prev.Some? then prev.value.sinceHandshake else p.sinceHandshake,
       ipAddresses := if p.ipAddresses == [] && prev.Some? then prev.value.ipAddresses else p.ipAddresses,
       endpointChangedAt := if oldEndpoint != p.endpoint then Some((now, Push)) else oldChange)
  }

  function WithPeer(ifc: Interface, now: Instant, p: Peer): Interface {
    ifc[p.publicKey := Stored(ifc, now, p)]
  }

  /** Every stored peer has a keepalive: both writing and reading back produce one. */
  ghost predicate Normalised(ifc: Interface) {
    forall k :: k in ifc ==> ifc[k].keepalive.Some?
  }

  ghost predicate ValidInterface(ifc: Interface) {
    WellKeyed(ifc) && Normalised(ifc) && DisjointInterface(ifc)
  }
}
