/** Building the wanted peers from the requested state and what the controller observes. */
module Requested {
  import opened Basics
  import opened Peers
  import opened Endpoints
  import opened Deduplication

  datatype Keepalives = Keepalives(vpn: Option<nat>, direct: nat, proxying: Option<nat>, stun: Option<nat>)

  datatype ExitNode = ExitNode(
    identifier: string, publicKey: PublicKey, allowedIps: Option<seq<IpNet>>, endpoint: Option<SocketAddr>)

  datatype StunServer = StunServer(publicKey: PublicKey, ipv4: nat, stunPort: nat)

  datatype Config = Config(
    thisHostname: string, thisNickname: Option<string>, thisIps: Option<seq<IpAddr>>, peers: Option<seq<ConfigPeer>>)

  /** The part of the requested state the peer list is built from. */
  datatype Wanted = Wanted(
    config: Option<Config>, exitNode: Option<ExitNode>, dnsEnabled: bool, stunServer: Option<StunServer>,
    keepalives: Keepalives)

  /** What the controller reads from its collaborators while building the list. */
  datatype Sensors = Sensors(
    now: Instant, proxies: EndpointMap, checked: map<PublicKey, Candidate>,
    upgradeRequests: map<PublicKey, SocketAddr>, sinceRx: map<PublicKey, nat>, links: map<PublicKey, LinkState>,
    online: map<PublicKey, bool>)

  datatype PqKeys = PqKeys(shared: PresharedKey, wgSecret: nat)

  /** The post-quantum entity as the list builder sees it, and key and port of the DNS and starcast virtual peers. */
  datatype Helpers = Helpers(
    pqRotating: bool, pqKeys: Option<PqKeys>, dns: Option<(PublicKey, nat)>, starcast: Option<(PublicKey, nat)>,
    stunActive: bool)

  datatype Features = Features(batching: bool, ipv6: bool)

  /** A freshly described peer: no state of the interface attached yet. */
  function NewPeer(
    key: PublicKey, endpoint: Option<SocketAddr>, ips: seq<IpAddr>, keepalive: Option<nat>, nets: seq<IpNet>,
    psk: Option<PresharedKey>): Peer
  {
    Peer(key, endpoint, None, ips, keepalive, nets, None, psk)
  }

  /** An interval is either WireGuard's own keepalive or, with batching, the session keeper's. */
  function WithInterval(r: RequestedPeer, interval: Option<nat>, f: Features): RequestedPeer {
    if f.batching
    then r.(peer := r.peer.(keepalive := None), batchingInterval := interval)
    else r.(peer := r.peer.(keepalive := interval), batchingInterval := None)
  }

  // ---- Meshnet peers ----

  function HostNet(ip: IpAddr): IpNet {
    IpNet(ip, if ip.V4? then 32 else 128)
  }

  function HostNets(ips: seq<IpAddr>, ipv6: bool): seq<IpNet> {
    if ips == [] then []
    else (if ips[0].V4? || ipv6 then [HostNet(ips[0])] else []) + HostNets(ips[1..], ipv6)
  }

  lemma {:induction false} HostNetsMeaning(ips: seq<IpAddr>, ipv6: bool, n: IpNet)
    ensures n in HostNets(ips, ipv6) <==> n == HostNet(n.addr) && n.addr in ips && (n.addr.V4? || ipv6)
  {
    if ips != [] {
      HostNetsMeaning(ips[1..], ipv6, n);
      assert ips == [ips[0]] + ips[1..];
    }
  }

  ghost predicate Configured(peers: seq<ConfigPeer>, k: PublicKey) {
    exists i :: 0 <= i < |peers| && peers[i].publicKey == k
  }

  ghost predicate Repeated(peers: seq<ConfigPeer>, k: PublicKey) {
    exists i, j :: 0 <= i < j < |peers| && peers[i].publicKey == k && peers[j].publicKey == k
  }

  ghost function ConfiguredKeys(peers: seq<ConfigPeer>): set<PublicKey> {
    set i | 0 <= i < |peers| :: peers[i].publicKey
  }

  /**
   The addresses a peer ends up with. A key listed twice ends up with none: the first entry takes the
   addresses out of the assignment, and the last entry is the one kept.
   */
  ghost function RoutedIps(peers: seq<ConfigPeer>, granted: map<PublicKey, seq<IpAddr>>, k: PublicKey): seq<IpAddr> {
    if k in granted && !Repeated(peers, k) then granted[k] else []
  }

  function MinOption(a: Option<nat>, b: Option<nat>): Option<nat> {
    if a.None? then b
    else if b.None? then a
    else if a.value <= b.value then a else b
  }

  function Elapsed(now: Instant, at: Instant): nat {
    if at <= now then now - at else 0
  }

  function ProxyOf(s: Sensors, k: PublicKey): seq<SocketAddr> {
    if k in s.proxies then s.proxies[k] else []
  }

  function Observe(w: Wanted, s: Sensors, ifc: Interface, k: PublicKey): Observation {
    var peer := Lookup(ifc, k);
    var changed := if peer.Some? then peer.value.endpointChangedAt else None;
    Observation(
      peer,
      MinOption(Lookup(s.sinceRx, k), if peer.Some? then peer.value.sinceHandshake else None),
      if changed.Some? then Some(Elapsed(s.now, changed.value.0)) else None,
      Lookup(s.links, k), ProxyOf(s, k), w.keepalives.direct)
  }

  /** Select the endpoint of one meshnet peer and set its keepalive accordingly. */
  function Finish(w: Wanted, s: Sensors, f: Features, ifc: Interface, r: RequestedPeer): RequestedPeer {
    var k := r.peer.publicKey;
    var choice := Choose(Observe(w, s, ifc, k), Lookup(s.checked, k), Lookup(s.upgradeRequests, k));
    var r1 := r.(peer := r.peer.(endpoint := choice.0), endpoint := choice.1);
    var interval :=
      if IsProxying(r1.peer, s.proxies)
      then (if Lookup(s.online, k) == Some(false) then None else w.keepalives.proxying)
      else Some(w.keepalives.direct);
    WithInterval(r1, interval, f)
  }

  function BasePeer(w: Wanted, s: Sensors, f: Features, k: PublicKey, ips: seq<IpAddr>): RequestedPeer {
    WithInterval(
      RequestedPeer(NewPeer(k, First(ProxyOf(s, k)), ips, None, HostNets(ips, f.ipv6), None), None, None),
      w.keepalives.proxying, f)
  }

  ghost function MeshPeers(w: Wanted, s: Sensors, f: Features, ifc: Interface): Request {
    if w.config.None? || w.config.value.peers.None? then map[]
    else
      var peers := w.config.value.peers.value;
      var granted := Assign(ClaimOrder(peers));
      map k | k in ConfiguredKeys(peers) :: Finish(w, s, f, ifc, BasePeer(w, s, f, k, RoutedIps(peers, granted, k)))
  }

  lemma RoutedIpsSnoc(peers: seq<ConfigPeer>, peer: ConfigPeer, granted: map<PublicKey, seq<IpAddr>>, k: PublicKey)
    ensures RoutedIps(peers + [peer], granted, k) ==
            if k == peer.publicKey && Configured(peers, k) then [] else RoutedIps(peers, granted, k)
    ensures !Configured(peers, k) ==> RoutedIps(peers, granted, k) == Lookup(granted, k).GetOr([])
    ensures ConfiguredKeys(peers + [peer]) == ConfiguredKeys(peers) + {peer.publicKey}
    ensures k in ConfiguredKeys(peers) <==> Configured(peers, k)
  {
    var all := peers + [peer];
    assert forall i :: 0 <= i < |peers| ==> all[i] == peers[i];
    assert all[|peers|] == peer;
    if Repeated(peers, k) {
      var i, j :| 0 <= i < j < |peers| && peers[i].publicKey == k && peers[j].publicKey == k;
      assert all[i].publicKey == k && all[j].publicKey == k;
    }
    if k == peer.publicKey && Configured(peers, k) {
      var i :| 0 <= i < |peers| && peers[i].publicKey == k;
      assert all[i].publicKey == k && all[|peers|].publicKey == k;
    }
  }

  /** The list builder: describe every configured peer, then revisit each to choose its endpoint. */
  method BuildMeshPeers(w: Wanted, s: Sensors, f: Features, ifc: Interface) returns (req: Request)
    ensures req == MeshPeers(w, s, f, ifc)
  {
    if w.config.None? || w.config.value.peers.None? {
      return map[];
    }
    var peers := w.config.value.peers.value;
    var granted := DeduplicatePeerIps(peers);
    var base := DescribePeers(w, s, f, peers, granted);
    req := FinishPeers(w, s, f, ifc, base);
  }

  method FinishPeers(w: Wanted, s: Sensors, f: Features, ifc: Interface, base: Request) returns (req: Request)
    ensures req == map k | k in base :: Finish(w, s, f, ifc, base[k])
  {
    req := base;
    var rest := req.Keys;
    while rest != {}
      invariant rest <= base.Keys && req.Keys == base.Keys
      invariant forall k :: k in base ==> req[k] == if k in rest then base[k] else Finish(w, s, f, ifc, base[k])
      decreases rest
    {
      var k :| k in rest;
      req := req[k := Finish(w, s, f, ifc, req[k])];
      rest := rest - {k};
    }
  }

  /** The entries made so far, and the addresses not handed out yet. */
  ghost predicate Described(
    w: Wanted, s: Sensors, f: Features, peers: seq<ConfigPeer>, granted: map<PublicKey, seq<IpAddr>>, req: Request,
    left: map<PublicKey, seq<IpAddr>>)
  {
    && req.Keys == ConfiguredKeys(peers)
    && left == granted - ConfiguredKeys(peers)
    && forall k :: k in req ==> req[k] == BasePeer(w, s, f, k, RoutedIps(peers, granted, k))
  }

  lemma DescribedSnoc(
      w: Wanted, s: Sensors, f: Features, peers: seq<ConfigPeer>, peer: ConfigPeer,
      granted: map<PublicKey, seq<IpAddr>>, req: Request, left: map<PublicKey, seq<IpAddr>>)
    requires Described(w, s, f, peers, granted, req, left)
    ensures var k := peer.publicKey;
            Described(w, s, f, peers + [peer], granted,
                      req[k := BasePeer(w, s, f, k, Lookup(left, k).GetOr([]))], left - {k})
  {
    hide BasePeer, RoutedIps, Configured, ConfiguredKeys;
    var k := peer.publicKey;
    RoutedIpsSnoc(peers, peer, granted, k);
    var req' := req[k := BasePeer(w, s, f, k, Lookup(left, k).GetOr([]))];
    forall j | j in req'
      ensures req'[j] == BasePeer(w, s, f, j, RoutedIps(peers + [peer], granted, j))
    {
      RoutedIpsSnoc(peers, peer, granted, j);
    }
  }

  method DescribePeers(
      w: Wanted, s: Sensors, f: Features, peers: seq<ConfigPeer>, granted: map<PublicKey, seq<IpAddr>>)
    returns (req: Request)
    ensures req.Keys == ConfiguredKeys(peers)
    ensures forall k :: k in req ==> req[k] == BasePeer(w, s, f, k, RoutedIps(peers, granted, k))
  {
    req := map[];
    var left := granted;
    for n := 0 to |peers|
      invariant Described(w, s, f, peers[..n], granted, req, left)
    {
      DescribedSnoc(w, s, f, peers[..n], peers[n], granted, req, left);
      assert peers[..n + 1] == peers[..n] + [peers[n]];
      var k := peers[n].publicKey;
      var ips := Lookup(left, k).GetOr([]);
      left := left - {k};
      req := req[k := BasePeer(w, s, f, k, ips)];
    }
    assert peers[..|peers|] == peers;
  }

  // ---- The other peers ----

  function DefaultRoutes(): seq<IpNet> {
    [IpNet(V4(0), 0), IpNet(V6(0), 0)]
  }

  function ExitNets(e: ExitNode, f: Features): seq<IpNet> {
    FilterFamily(e.allowedIps.GetOr(DefaultRoutes()), f.ipv6)
  }

  function FilterFamily(nets: seq<IpNet>, ipv6: bool): seq<IpNet> {
    if nets == [] then []
    else (if ipv6 || nets[0].addr.V4? then [nets[0]] else []) + FilterFamily(nets[1..], ipv6)
  }

  // 100.64.0.1, fd74:656c:696f::1 and 10.5.0.1
  const VPN_INTERNAL_IPV4: IpAddr := V4(0x64400001)
  const VPN_INTERNAL_IPV6: IpAddr := V6(0xfd74_656c_696f_0000_0000_0000_0000_0001)
  const VPN_EXTERNAL_IPV4: IpAddr := V4(0x0a050001)

  function VpnIps(f: Features): seq<IpAddr> {
    [VPN_INTERNAL_IPV4] + (if f.ipv6 then [VPN_INTERNAL_IPV6] else []) + [VPN_EXTERNAL_IPV4]
  }

  /** A meshnet peer is promoted in place; otherwise the exit node is added, unless post-quantum keys are awaited. */
  function WithExit(req: Request, w: Wanted, f: Features, h: Helpers): Request {
    if w.exitNode.None? then req
    else
      var e := w.exitNode.value;
      var nets := ExitNets(e, f);
      if e.publicKey in req then
        req[e.publicKey := req[e.publicKey].(peer := req[e.publicKey].peer.(allowedIps := nets))]
      else if h.pqRotating && h.pqKeys.None? then req
      else
        var psk := if h.pqKeys.Some? then Some(h.pqKeys.value.shared) else None;
        req[e.publicKey := WithInterval(
          RequestedPeer(NewPeer(e.publicKey, e.endpoint, VpnIps(f), None, nets, psk), None, None),
          w.keepalives.vpn, f)]
  }

  // 100.64.0.2, 100.64.0.3 and their IPv6 counterparts
  function DnsNets(exitPromoted: bool): seq<IpNet> {
    if exitPromoted then
      [HostNet(V4(0x64400002)), HostNet(V6(0xfd74_656c_696f_0000_0000_0000_0000_0002))]
    else
      [HostNet(V4(0x64400002)), HostNet(V4(0x64400003)),
       HostNet(V6(0xfd74_656c_696f_0000_0000_0000_0000_0002)), HostNet(V6(0xfd74_656c_696f_0000_0000_0000_0000_0003))]
  }

  function Addresses(nets: seq<IpNet>): seq<IpAddr> {
    seq(|nets|, i requires 0 <= i < |nets| => nets[i].addr)
  }

  // 127.0.0.1
  function Loopback(port: nat): SocketAddr {
    SocketAddr(V4(0x7f000001), port)
  }

  function WithDns(req: Request, w: Wanted, h: Helpers, exitPromoted: bool): Request {
    if !w.dnsEnabled || h.dns.None? then req
    else
      var (key, port) := h.dns.value;
      var nets := DnsNets(exitPromoted);
      req[key := RequestedPeer(NewPeer(key, Some(Loopback(port)), Addresses(nets), None, nets, None), None, None)]
  }

  // 224.0.0.0/4, 100.64.0.5, ff02::fb and fd74:656c:696f::5
  function StarcastNets(f: Features): seq<IpNet> {
    [IpNet(V4(0xe0000000), 4), HostNet(V4(0x64400005))]
    + if f.ipv6 then [HostNet(V6(0xff02_0000_0000_0000_0000_0000_0000_00fb)),
                      HostNet(V6(0xfd74_656c_696f_0000_0000_0000_0000_0005))]
      else []
  }

  function WithStarcast(req: Request, f: Features, h: Helpers): Request {
    if h.starcast.None? then req
    else
      var (key, port) := h.starcast.value;
      req[key := RequestedPeer(NewPeer(key, Some(Loopback(port)), [], None, StarcastNets(f), None), None, None)]
  }

  // 100.64.0.4 and fd74:656c:696f::4
  function StunNets(f: Features): seq<IpNet> {
    [HostNet(V4(0x64400004))] + if f.ipv6 then [HostNet(V6(0xfd74_656c_696f_0000_0000_0000_0000_0004))] else []
  }

  function WithStun(req: Request, w: Wanted, f: Features, h: Helpers): Request {
    if w.stunServer.None? || !h.stunActive then req
    else
      var st := w.stunServer.value;
      req[st.publicKey := WithInterval(
        RequestedPeer(
          NewPeer(st.publicKey, Some(SocketAddr(V4(st.ipv4), st.stunPort)), Addresses(StunNets(f)), None, StunNets(f),
                  None),
          None, None),
        w.keepalives.stun, f)]
  }

  predicate ExitPromoted(mesh: Request, w: Wanted) {
    w.exitNode.Some? && w.exitNode.value.publicKey in mesh
  }

  function Extend(mesh: Request, w: Wanted, f: Features, h: Helpers): Request {
    WithStun(WithStarcast(WithDns(WithExit(mesh, w, f, h), w, h, ExitPromoted(mesh, w)), f, h), w, f, h)
  }

  /** The complete list of wanted peers. */
  ghost function RequestedPeers(w: Wanted, s: Sensors, f: Features, h: Helpers, ifc: Interface): Request {
    Extend(MeshPeers(w, s, f, ifc), w, f, h)
  }

  method BuildRequestedPeers(w: Wanted, s: Sensors, f: Features, h: Helpers, ifc: Interface) returns (req: Request)
    ensures req == RequestedPeers(w, s, f, h, ifc)
  {
    var mesh := BuildMeshPeers(w, s, f, ifc);
    req := Extend(mesh, w, f, h);
  }

  /** The two requests differ at most in the networks routed to the peer. */
  predicate SameButRoutes(a: RequestedPeer, b: RequestedPeer) {
    a == b.(peer := b.peer.(allowedIps := a.peer.allowedIps))
  }

  /** The key of the DNS, starcast or STUN peer. */
  predicate IsHelperKey(w: Wanted, h: Helpers, k: PublicKey) {
    || (h.dns.Some? && h.dns.value.0 == k)
    || (h.starcast.Some? && h.starcast.value.0 == k)
    || (w.stunServer.Some? && w.stunServer.value.publicKey == k)
  }

  lemma HelpersKeep(req: Request, w: Wanted, f: Features, h: Helpers, promoted: bool, k: PublicKey)
    requires !IsHelperKey(w, h, k)
    ensures Lookup(WithStun(WithStarcast(WithDns(req, w, h, promoted), f, h), w, f, h), k) == Lookup(req, k)
  {
    var b := WithDns(req, w, h, promoted);
    assert Lookup(b, k) == Lookup(req, k);
    var c := WithStarcast(b, f, h);
    assert Lookup(c, k) == Lookup(b, k);
  }

  /** A meshnet peer that no helper peer replaces keeps everything but its routes. */
  lemma ExtendKeeps(mesh: Request, w: Wanted, f: Features, h: Helpers, k: PublicKey)
    requires k in mesh && !IsHelperKey(w, h, k)
    ensures k in Extend(mesh, w, f, h) && SameButRoutes(Extend(mesh, w, f, h)[k], mesh[k])
  {
    HelpersKeep(WithExit(mesh, w, f, h), w, f, h, ExitPromoted(mesh, w), k);
  }

  lemma HelpersNeverAdvertise(req: Request, w: Wanted, f: Features, h: Helpers, promoted: bool, k: PublicKey)
    requires var all := WithStun(WithStarcast(WithDns(req, w, h, promoted), f, h), w, f, h);
             k in all && all[k].endpoint.Some?
    ensures Lookup(WithStun(WithStarcast(WithDns(req, w, h, promoted), f, h), w, f, h), k) == Lookup(req, k)
  {
    var b := WithDns(req, w, h, promoted);
    var c := WithStarcast(b, f, h);
    assert Lookup(WithStun(c, w, f, h), k) == Lookup(c, k);
    assert Lookup(c, k) == Lookup(b, k);
  }

  /** Only meshnet peers carry an endpoint to advertise. */
  lemma OnlyMeshAdvertises(mesh: Request, w: Wanted, f: Features, h: Helpers, k: PublicKey)
    requires k in Extend(mesh, w, f, h) && Extend(mesh, w, f, h)[k].endpoint.Some?
    ensures k in mesh && SameButRoutes(Extend(mesh, w, f, h)[k], mesh[k])
  {
    HelpersNeverAdvertise(WithExit(mesh, w, f, h), w, f, h, ExitPromoted(mesh, w), k);
  }

  /** The endpoint part of a finished meshnet peer. */
  lemma MeshEndpoint(w: Wanted, s: Sensors, f: Features, ifc: Interface, k: PublicKey)
    requires k in MeshPeers(w, s, f, ifc)
    ensures var choice := Choose(Observe(w, s, ifc, k), Lookup(s.checked, k), Lookup(s.upgradeRequests, k));
            var r := MeshPeers(w, s, f, ifc)[k];
            r.peer.publicKey == k && r.peer.endpoint == choice.0 && r.endpoint == choice.1
  {
  }

  predicate RelayEndpoint(s: Sensors, k: PublicKey, e: Option<SocketAddr>) {
    e.Some? && e.value in ProxyOf(s, k)
  }

  /** The keepalive a meshnet peer is requested with, depending on its endpoint. */
  function RequestedKeepalive(w: Wanted, s: Sensors, f: Features, k: PublicKey, e: Option<SocketAddr>): Option<nat> {
    if f.batching then None
    else if !RelayEndpoint(s, k, e) then Some(w.keepalives.direct)
    else if Lookup(s.online, k) == Some(false) then None
    else w.keepalives.proxying
  }

  lemma MeshKeepalive(w: Wanted, s: Sensors, f: Features, ifc: Interface, k: PublicKey)
    requires k in MeshPeers(w, s, f, ifc)
    ensures var r := MeshPeers(w, s, f, ifc)[k].peer; r.keepalive == RequestedKeepalive(w, s, f, k, r.endpoint)
  {
  }

  lemma RequestWellKeyed(w: Wanted, s: Sensors, f: Features, h: Helpers, ifc: Interface)
    ensures WellKeyedRequest(RequestedPeers(w, s, f, h, ifc))
  {
    var mesh := MeshPeers(w, s, f, ifc);
    assert WellKeyedRequest(mesh);
    var a := WithExit(mesh, w, f, h);
    assert WellKeyedRequest(a);
    var b := WithDns(a, w, h, ExitPromoted(mesh, w));
    assert WellKeyedRequest(b);
    assert WellKeyedRequest(WithStarcast(b, f, h));
  }
}
