/**
 The records the controller works on: WireGuard peers as the interface stores them, peers as the
 meshnet configuration describes them, and the inputs one consolidation pass reads.
 */
module Peers {
  import opened Basics

  /** Only the identity of a key matters to the controller. */
  type PublicKey = nat
  type PresharedKey = nat
  type Session = nat

  /** Nanoseconds, for both points in time and durations. */
  type Instant = nat
  const SECOND: nat := 1_000_000_000

  datatype IpAddr = V4(v4: nat) | V6(v6: nat)
  datatype IpNet = IpNet(addr: IpAddr, prefix: nat)
  datatype SocketAddr = SocketAddr(ip: IpAddr, port: nat)

  /** Whether an endpoint change was written by this library or observed in the interface. */
  datatype UpdateReason = Pull | Push

  datatype Peer = Peer(
    publicKey: PublicKey,
    endpoint: Option<SocketAddr>,
    endpointChangedAt: Option<(Instant, UpdateReason)>,
    ipAddresses: seq<IpAddr>,
    keepalive: Option<nat>,
    allowedIps: seq<IpNet>,
    sinceHandshake: Option<nat>,
    presharedKey: Option<PresharedKey>)

  type Interface = map<PublicKey, Peer>

  /** Kinds of endpoint providers a candidate may come from. */
  datatype Provider = Local | Stun | Upnp

  datatype EndpointState = EndpointState(
    localAddress: SocketAddr, session: Session, localType: Provider, remoteType: Provider)

  datatype RequestedPeer = RequestedPeer(
    peer: Peer, batchingInterval: Option<nat>, endpoint: Option<EndpointState>)

  type Request = map<PublicKey, RequestedPeer>

  type EndpointMap = map<PublicKey, seq<SocketAddr>>

  /** A path the cross ping check has validated. */
  datatype Candidate = Candidate(
    remote: (SocketAddr, Provider), local: (SocketAddr, Provider), session: Session, changedAt: Instant)

  datatype LinkState = Down | Up

  ghost predicate WellKeyed(ifc: Interface) {
    forall k :: k in ifc ==> ifc[k].publicKey == k
  }

  ghost predicate WellKeyedRequest(req: Request) {
    forall k :: k in req ==> req[k].peer.publicKey == k
  }

  /** The comparison deciding whether a peer must be written again. */
  predicate ComparePeers(a: Peer, b: Peer) {
    && a.publicKey == b.publicKey
    && a.endpoint == b.endpoint
    && a.keepalive == b.keepalive
    && a.allowedIps == b.allowedIps
    && a.presharedKey == b.presharedKey
  }

  /** Relayed: the endpoint is one of the addresses the local proxy serves this peer on. */
  predicate IsProxying(p: Peer, proxies: EndpointMap) {
    p.publicKey in proxies && p.endpoint.Some? && p.endpoint.value in proxies[p.publicKey]
  }

  predicate Overlap(a: seq<IpNet>, b: seq<IpNet>) {
    exists i :: 0 <= i < |a| && a[i] in b
  }

  lemma OverlapSymmetric(a: seq<IpNet>, b: seq<IpNet>)
    ensures Overlap(a, b) <==> Overlap(b, a)
  {
    if Overlap(a, b) {
      var i :| 0 <= i < |a| && a[i] in b;
      var j :| 0 <= j < |b| && b[j] == a[i];
      assert b[j] in a;
    }
    if Overlap(b, a) {
      var i :| 0 <= i < |b| && b[i] in a;
      var j :| 0 <= j < |a| && a[j] == b[i];
      assert a[j] in b;
    }
  }

  /** The networks of any two requested peers are disjoint. */
  ghost predicate DisjointRoutes(req: Request) {
    forall j, k :: j in req && k in req && j != k ==> !Overlap(req[j].peer.allowedIps, req[k].peer.allowedIps)
  }

  ghost predicate DisjointInterface(ifc: Interface) {
    forall j, k :: j in ifc && k in ifc && j != k ==> !Overlap(ifc[j].allowedIps, ifc[k].allowedIps)
  }
}
