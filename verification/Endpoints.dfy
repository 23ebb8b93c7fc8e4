/** Classifying a meshnet peer and choosing the endpoint to ask WireGuard for. */
module Endpoints {
  import opened Basics
  import opened Peers

  datatype PeerState = Disconnected | Proxying | Upgrading | Direct

  const UPGRADE_WINDOW: nat := 15 * SECOND
  const SAFETY_SILENCE: nat := 180 * SECOND

  /** Three keepalive periods, multiplied in 32 bits as the source does. */
  function ConnectivityTimeout(keepalive: nat): nat {
    (keepalive * 3) % 0x1_0000_0000 * SECOND
  }

  predicate HasContact(sinceRx: nat, link: Option<LinkState>, keepalive: nat) {
    if link.Some? then sinceRx <= SAFETY_SILENCE && link.value != Down
    else sinceRx < ConnectivityTimeout(keepalive)
  }

  /** What the controller can observe about one peer at the moment of a pass. */
  datatype Observation = Observation(
    peer: Option<Peer>, sinceRx: Option<nat>, sinceChange: Option<nat>, link: Option<LinkState>,
    proxy: seq<SocketAddr>, directKeepalive: nat)

  /** The peer has been heard recently, on an endpoint whose age is known. */
  predicate InContact(o: Observation) {
    && o.peer.Some? && o.sinceChange.Some? && o.sinceRx.Some?
    && HasContact(o.sinceRx.value, o.link, o.peer.value.keepalive.GetOr(o.directKeepalive))
  }

  predicate Relayed(o: Observation) {
    o.peer.Some? && o.peer.value.endpoint.Some? && o.peer.value.endpoint.value in o.proxy
  }

  function PeerStateOf(o: Observation): PeerState {
    if o.peer.None? || o.sinceChange.None? || o.sinceRx.None? then Disconnected
    else
      var contact := HasContact(o.sinceRx.value, o.link, o.peer.value.keepalive.GetOr(o.directKeepalive));
      var proxying := o.peer.value.endpoint.Some? && o.peer.value.endpoint.value in o.proxy;
      var inWindow := o.sinceChange.value < UPGRADE_WINDOW;
      if !contact then Disconnected
      else if proxying then Proxying
      else if inWindow then Upgrading
      else Direct
  }

  function First(addrs: seq<SocketAddr>): Option<SocketAddr> {
    if addrs == [] then None else Some(addrs[0])
  }

  function Advertised(c: Candidate): EndpointState {
    EndpointState(c.local.0, c.session, c.local.1, c.remote.1)
  }

  /** The endpoint to write, and the local endpoint to advertise to the other side when this side starts an upgrade. */
  function SelectEndpoint(
    actual: Option<Peer>, state: PeerState, checked: Option<Candidate>, proxy: seq<SocketAddr>,
    upgradeRequest: Option<SocketAddr>): (Option<SocketAddr>, Option<EndpointState>)
  {
    var current := if actual.Some? then actual.value.endpoint else None;
    if upgradeRequest.Some? then
      if (state.Upgrading? || state.Direct?) && current.Some? && current.value !in proxy then (current, None)
      else (upgradeRequest, None)
    else match state
      case Disconnected => (First(proxy), None)
      case Proxying =>
        if checked.None? then (First(proxy), None)
        else (Some(checked.value.remote.0), Some(Advertised(checked.value)))
      case Upgrading => (current, None)
      case Direct => (current, None)
  }

  function Choose(o: Observation, checked: Option<Candidate>, upgradeRequest: Option<SocketAddr>)
    : (Option<SocketAddr>, Option<EndpointState>)
  {
    SelectEndpoint(o.peer, PeerStateOf(o), checked, o.proxy, upgradeRequest)
  }

  /** A chosen endpoint is the other side's request, an own candidate, a relay address or the one in use. */
  lemma ChoiceSources(o: Observation, checked: Option<Candidate>, upgradeRequest: Option<SocketAddr>)
    requires Choose(o, checked, upgradeRequest).0.Some?
    ensures var e := Choose(o, checked, upgradeRequest).0;
            || e == upgradeRequest
            || (checked.Some? && e.value == checked.value.remote.0)
            || e.value in o.proxy
            || (o.peer.Some? && e == o.peer.value.endpoint)
  {
  }

  /**
   A live direct link is kept whatever is pending, and once contact is lost with no request from the other side
   the choice is the first relay address; an advertised endpoint is always this side's own validated candidate.
   */
  lemma ChoiceRules(o: Observation, checked: Option<Candidate>, upgradeRequest: Option<SocketAddr>)
    ensures InContact(o) && o.peer.value.endpoint.Some? && !Relayed(o) ==>
              Choose(o, checked, upgradeRequest) == (o.peer.value.endpoint, None)
    ensures !InContact(o) && upgradeRequest.None? ==> Choose(o, checked, upgradeRequest) == (First(o.proxy), None)
    ensures Choose(o, checked, upgradeRequest).1.Some? <==>
            InContact(o) && Relayed(o) && upgradeRequest.None? && checked.Some?
    ensures Choose(o, checked, upgradeRequest).1.Some? ==>
              Choose(o, checked, upgradeRequest) == (Some(checked.value.remote.0), Some(Advertised(checked.value)))
  {
  }
}
