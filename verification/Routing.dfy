/** Routing: when the wanted peers pass the allowed-IP check. */
module Routing {
  import opened Basics
  import opened Peers
  import opened Deduplication
  import opened Requested

  lemma MeshNets(w: Wanted, s: Sensors, f: Features, ifc: Interface, k: PublicKey)
    requires k in MeshPeers(w, s, f, ifc)
    ensures w.config.Some? && w.config.value.peers.Some?
    ensures MeshPeers(w, s, f, ifc)[k].peer.allowedIps ==
            HostNets(RoutedIps(w.config.value.peers.value, Assign(ClaimOrder(w.config.value.peers.value)), k), f.ipv6)
  {
  }

  /** The meshnet peers always pass the allowed-IP check, whatever the configuration. */
  lemma MeshRoutesDisjoint(w: Wanted, s: Sensors, f: Features, ifc: Interface)
    ensures DisjointRoutes(MeshPeers(w, s, f, ifc))
  {
    var req := MeshPeers(w, s, f, ifc);
    forall j, k | j in req && k in req && j != k
      ensures !Overlap(req[j].peer.allowedIps, req[k].peer.allowedIps)
    {
      var peers := w.config.value.peers.value;
      var granted := Assign(ClaimOrder(peers));
      NoAddressTwice(ClaimOrder(peers));
      MeshNets(w, s, f, ifc, j);
      MeshNets(w, s, f, ifc, k);
      forall i | 0 <= i < |req[j].peer.allowedIps|
        ensures req[j].peer.allowedIps[i] !in req[k].peer.allowedIps
      {
        var n := req[j].peer.allowedIps[i];
        HostNetsMeaning(RoutedIps(peers, granted, j), f.ipv6, n);
        HostNetsMeaning(RoutedIps(peers, granted, k), f.ipv6, n);
      }
    }
  }

  lemma {:induction false} FilterFamilyMeaning(nets: seq<IpNet>, ipv6: bool, n: IpNet)
    ensures n in FilterFamily(nets, ipv6) <==> n in nets && (ipv6 || n.addr.V4?)
  {
    if nets != [] {
      FilterFamilyMeaning(nets[1..], ipv6, n);
      assert nets == [nets[0]] + nets[1..];
    }
  }

  /** An exit node with the default routes never takes a route from a meshnet peer, added or promoted. */
  lemma DefaultExitRoutesDisjoint(w: Wanted, s: Sensors, f: Features, h: Helpers, ifc: Interface)
    requires w.exitNode.Some? ==> w.exitNode.value.allowedIps.None?
    ensures DisjointRoutes(WithExit(MeshPeers(w, s, f, ifc), w, f, h))
  {
    hide MeshPeers;
    var mesh := MeshPeers(w, s, f, ifc);
    var req := WithExit(mesh, w, f, h);
    MeshRoutesDisjoint(w, s, f, ifc);
    forall j, k | j in req && k in req && j != k
      ensures !Overlap(req[j].peer.allowedIps, req[k].peer.allowedIps)
    {
      if w.exitNode.Some? && j == w.exitNode.value.publicKey {
        DefaultRoutesAreNotHosts(w, s, f, ifc, w.exitNode.value, k);
      } else if w.exitNode.Some? && k == w.exitNode.value.publicKey {
        DefaultRoutesAreNotHosts(w, s, f, ifc, w.exitNode.value, j);
        OverlapSymmetric(req[j].peer.allowedIps, req[k].peer.allowedIps);
      }
    }
  }

  lemma DefaultRoutesAreNotHosts(w: Wanted, s: Sensors, f: Features, ifc: Interface, e: ExitNode, k: PublicKey)
    requires e.allowedIps.None? && k in MeshPeers(w, s, f, ifc)
    ensures !Overlap(ExitNets(e, f), MeshPeers(w, s, f, ifc)[k].peer.allowedIps)
  {
    hide MeshPeers;
    var nets := ExitNets(e, f);
    MeshNets(w, s, f, ifc, k);
    var peers := w.config.value.peers.value;
    forall i | 0 <= i < |nets|
      ensures nets[i] !in MeshPeers(w, s, f, ifc)[k].peer.allowedIps
    {
      FilterFamilyMeaning(DefaultRoutes(), f.ipv6, nets[i]);
      HostNetsMeaning(RoutedIps(peers, Assign(ClaimOrder(peers)), k), f.ipv6, nets[i]);
    }
  }

  // ---- Which addresses are routed to a meshnet peer ----

  /** The peer at `c`, in claiming order, is routed `ip`. */
  ghost predicate Routed(peers: seq<ConfigPeer>, f: Features, c: nat, ip: IpAddr) {
    var order := ClaimOrder(peers);
    && OwnsEntry(order, c) && !Repeated(peers, order[c].publicKey)
    && FirstClaimant(order, c, ip) && (ip.V4? || f.ipv6)
  }

  /**
   A meshnet peer is routed exactly the addresses it is the first to claim, those of IPv6 only with that feature on;
   a key listed twice is routed none of them.
   */
  lemma MeshRouteIff(w: Wanted, s: Sensors, f: Features, ifc: Interface, c: nat, ip: IpAddr)
    requires w.config.Some? && w.config.value.peers.Some? && OwnsEntry(ClaimOrder(w.config.value.peers.value), c)
    ensures var peers := w.config.value.peers.value;
            var k := ClaimOrder(peers)[c].publicKey;
            && k in MeshPeers(w, s, f, ifc)
            && (HostNet(ip) in MeshPeers(w, s, f, ifc)[k].peer.allowedIps <==> Routed(peers, f, c, ip))
  {
    hide MeshPeers, Keep;
    var peers := w.config.value.peers.value;
    var order := ClaimOrder(peers);
    var k := order[c].publicKey;
    FirstClaimantWins(order, c);
    ClaimsAreConfigured(w, s, f, ifc, c);
    MeshNets(w, s, f, ifc, k);
    HostNetsMeaning(RoutedIps(peers, Assign(order), k), f.ipv6, HostNet(ip));
  }

  lemma ClaimsAreConfigured(w: Wanted, s: Sensors, f: Features, ifc: Interface, c: nat)
    requires w.config.Some? && w.config.value.peers.Some? && c < |ClaimOrder(w.config.value.peers.value)|
    ensures ClaimOrder(w.config.value.peers.value)[c].publicKey in MeshPeers(w, s, f, ifc)
  {
    var peers := w.config.value.peers.value;
    var q := ClaimOrder(peers)[c];
    SelectMeaning(peers, true);
    SelectMeaning(peers, false);
    assert q in Select(peers, true) || q in Select(peers, false);
    var i :| 0 <= i < |peers| && peers[i] == q;
    assert q.publicKey in ConfiguredKeys(peers);
  }

  /** And it is routed nothing else. */
  lemma MeshRouteSource(w: Wanted, s: Sensors, f: Features, ifc: Interface, k: PublicKey, n: IpNet) returns (c: nat)
    requires k in MeshPeers(w, s, f, ifc) && n in MeshPeers(w, s, f, ifc)[k].peer.allowedIps
    ensures w.config.Some? && w.config.value.peers.Some? && n == HostNet(n.addr)
    ensures Routed(w.config.value.peers.value, f, c, n.addr) && ClaimOrder(w.config.value.peers.value)[c].publicKey == k
  {
    hide MeshPeers;
    MeshNets(w, s, f, ifc, k);
    var peers := w.config.value.peers.value;
    HostNetsMeaning(RoutedIps(peers, Assign(ClaimOrder(peers)), k), f.ipv6, n);
    c := OwnerOf(ClaimOrder(peers), k);
    MeshRouteIff(w, s, f, ifc, c, n.addr);
  }

  /** A configuration listing a key twice, with an address nobody else claims: the peer is routed nothing. */
  function RepeatedPeer(): ConfigPeer {
    ConfigPeer(7, "a.nord", None, Some([V4(1)]), true, false, false, false, false)
  }

  lemma RepeatedKeyIsUnreachable(w: Wanted, s: Sensors, f: Features, ifc: Interface)
    requires w.config.Some? && w.config.value.peers == Some([RepeatedPeer(), RepeatedPeer()])
    ensures FirstClaimant(ClaimOrder(w.config.value.peers.value), 0, V4(1))
    ensures 7 in MeshPeers(w, s, f, ifc) && MeshPeers(w, s, f, ifc)[7].peer.allowedIps == []
  {
    hide MeshPeers;
    var q, peers := RepeatedPeer(), w.config.value.peers.value;
    assert peers[..1] == [q] && [q][..0] == [];
    assert Select([q], true) == [q] && Select([q], false) == [];
    assert ClaimOrder(peers) == [q, q];
    assert [V4(1)][0] == V4(1);
    ClaimsAreConfigured(w, s, f, ifc, 0);
    assert peers[0].publicKey == 7 && peers[1].publicKey == 7;
    var nets := MeshPeers(w, s, f, ifc)[7].peer.allowedIps;
    if nets != [] {
      var c := MeshRouteSource(w, s, f, ifc, 7, nets[0]);
    }
  }

  // ---- The complete list ----

  lemma AddRoute(req: Request, k: PublicKey, r: RequestedPeer)
    requires k !in req
    ensures DisjointRoutes(req[k := r]) <==>
            DisjointRoutes(req) && forall j :: j in req ==> !Overlap(req[j].peer.allowedIps, r.peer.allowedIps)
  {
    var all := req[k := r];
    if DisjointRoutes(all) {
      forall i, j | i in req && j in req && i != j
        ensures !Overlap(req[i].peer.allowedIps, req[j].peer.allowedIps)
      {
        assert all[i] == req[i] && all[j] == req[j];
      }
      forall j | j in req
        ensures !Overlap(req[j].peer.allowedIps, r.peer.allowedIps)
      {
        assert all[j] == req[j] && all[k] == r;
      }
    }
    if DisjointRoutes(req) && forall j :: j in req ==> !Overlap(req[j].peer.allowedIps, r.peer.allowedIps) {
      forall i, j | i in all && j in all && i != j
        ensures !Overlap(all[i].peer.allowedIps, all[j].peer.allowedIps)
      {
        OverlapSymmetric(all[i].peer.allowedIps, all[j].peer.allowedIps);
      }
    }
  }

  // The networks of the exit node and of the virtual peers, as far as they are in use.
  ghost predicate ExitConfigured(w: Wanted) {
    && w.exitNode.Some? && w.config.Some? && w.config.value.peers.Some?
    && w.exitNode.value.publicKey in ConfiguredKeys(w.config.value.peers.value)
  }

  ghost function ExitPart(w: Wanted, f: Features, h: Helpers): seq<IpNet> {
    if w.exitNode.None? || (!ExitConfigured(w) && h.pqRotating && h.pqKeys.None?) then []
    else ExitNets(w.exitNode.value, f)
  }

  function DnsPart(w: Wanted, h: Helpers, promoted: bool): seq<IpNet> {
    if w.dnsEnabled && h.dns.Some? then DnsNets(promoted) else []
  }

  function StarcastPart(f: Features, h: Helpers): seq<IpNet> {
    if h.starcast.Some? then StarcastNets(f) else []
  }

  function StunPart(w: Wanted, f: Features, h: Helpers): seq<IpNet> {
    if w.stunServer.Some? && h.stunActive then StunNets(f) else []
  }

  ghost function Reserved(w: Wanted, f: Features, h: Helpers): seq<IpNet> {
    DnsPart(w, h, ExitConfigured(w)) + StarcastPart(f, h) + StunPart(w, f, h)
  }

  /** No requested peer routes any of the networks. */
  ghost predicate Clear(req: Request, nets: seq<IpNet>) {
    forall j :: j in req ==> !Overlap(req[j].peer.allowedIps, nets)
  }

  /** The virtual peers have keys of their own. */
  ghost predicate HelperKeysSeparate(w: Wanted, h: Helpers) {
    && (forall k :: IsHelperKey(w, h, k) ==>
                      && (w.exitNode.Some? ==> w.exitNode.value.publicKey != k)
                      && (w.config.Some? && w.config.value.peers.Some? ==>
                            k !in ConfiguredKeys(w.config.value.peers.value)))
    && HelperKeysDistinct(w, h)
  }

  ghost predicate HelperKeysDistinct(w: Wanted, h: Helpers) {
    && (h.dns.Some? && h.starcast.Some? ==> h.dns.value.0 != h.starcast.value.0)
    && (h.dns.Some? && w.stunServer.Some? ==> h.dns.value.0 != w.stunServer.value.publicKey)
    && (h.starcast.Some? && w.stunServer.Some? ==> h.starcast.value.0 != w.stunServer.value.publicKey)
  }

  lemma DnsStage(req: Request, w: Wanted, h: Helpers, promoted: bool)
    requires h.dns.Some? ==> h.dns.value.0 !in req
    ensures DisjointRoutes(WithDns(req, w, h, promoted)) <==> DisjointRoutes(req) && Clear(req, DnsPart(w, h, promoted))
    ensures forall nets :: !Overlap(DnsPart(w, h, promoted), nets) ==>
                             (Clear(WithDns(req, w, h, promoted), nets) <==> Clear(req, nets))
  {
    if w.dnsEnabled && h.dns.Some? {
      var all := WithDns(req, w, h, promoted);
      AddRoute(req, h.dns.value.0, all[h.dns.value.0]);
      ClearAdd(req, h.dns.value.0, all[h.dns.value.0]);
    }
  }

  lemma StarcastStage(req: Request, f: Features, h: Helpers)
    requires h.starcast.Some? ==> h.starcast.value.0 !in req
    ensures DisjointRoutes(WithStarcast(req, f, h)) <==> DisjointRoutes(req) && Clear(req, StarcastPart(f, h))
    ensures forall nets :: !Overlap(StarcastPart(f, h), nets) ==>
                             (Clear(WithStarcast(req, f, h), nets) <==> Clear(req, nets))
  {
    if h.starcast.Some? {
      var all := WithStarcast(req, f, h);
      AddRoute(req, h.starcast.value.0, all[h.starcast.value.0]);
      ClearAdd(req, h.starcast.value.0, all[h.starcast.value.0]);
    }
  }

  lemma StunStage(req: Request, w: Wanted, f: Features, h: Helpers)
    requires w.stunServer.Some? ==> w.stunServer.value.publicKey !in req
    ensures DisjointRoutes(WithStun(req, w, f, h)) <==> DisjointRoutes(req) && Clear(req, StunPart(w, f, h))
  {
    if w.stunServer.Some? && h.stunActive {
      var all := WithStun(req, w, f, h);
      AddRoute(req, w.stunServer.value.publicKey, all[w.stunServer.value.publicKey]);
    }
  }

  lemma ClearAdd(req: Request, k: PublicKey, r: RequestedPeer)
    requires k !in req
    ensures forall nets :: Clear(req[k := r], nets) <==> Clear(req, nets) && !Overlap(r.peer.allowedIps, nets)
  {
    forall nets
      ensures Clear(req[k := r], nets) <==> Clear(req, nets) && !Overlap(r.peer.allowedIps, nets)
    {
      var all := req[k := r];
      assert forall j :: j in req ==> all[j] == req[j];
      assert all[k] == r;
    }
  }

  lemma BuiltInNetsDisjoint(f: Features, promoted: bool)
    ensures !Overlap(DnsNets(promoted), StarcastNets(f))
    ensures !Overlap(DnsNets(promoted), StunNets(f)) && !Overlap(StarcastNets(f), StunNets(f))
  {
  }

  lemma EmptyOverlap(nets: seq<IpNet>)
    ensures !Overlap(nets, []) && !Overlap([], nets)
  {
  }

  lemma OverlapConcat(a: seq<IpNet>, b: seq<IpNet>, c: seq<IpNet>)
    ensures Overlap(a, b + c) <==> Overlap(a, b) || Overlap(a, c)
  {
  }

  lemma ClearConcat(req: Request, b: seq<IpNet>, c: seq<IpNet>)
    ensures Clear(req, b + c) <==> Clear(req, b) && Clear(req, c)
  {
    hide Overlap;
    forall j | j in req
      ensures Overlap(req[j].peer.allowedIps, b + c) <==>
              Overlap(req[j].peer.allowedIps, b) || Overlap(req[j].peer.allowedIps, c)
    {
      OverlapConcat(req[j].peer.allowedIps, b, c);
    }
  }

  /** Adding the virtual peers one after the other keeps the routes disjoint exactly when each finds its own free. */
  lemma HelperStages(req: Request, w: Wanted, f: Features, h: Helpers)
    requires HelperKeysDistinct(w, h) && forall k :: IsHelperKey(w, h, k) ==> k !in req
    ensures DisjointRoutes(WithStun(WithStarcast(WithDns(req, w, h, ExitConfigured(w)), f, h), w, f, h)) <==>
            DisjointRoutes(req) && Clear(req, Reserved(w, f, h))
  {
    hide Overlap, DisjointRoutes, Clear, DnsNets, StunNets, StarcastNets, ExitConfigured;
    var promoted := ExitConfigured(w);
    var b := WithDns(req, w, h, promoted);
    BuiltInNetsDisjoint(f, promoted);
    EmptyOverlap(DnsNets(promoted));
    EmptyOverlap(StarcastNets(f));
    EmptyOverlap(StunNets(f));
    DnsStage(req, w, h, promoted);
    StarcastStage(b, f, h);
    StunStage(WithStarcast(b, f, h), w, f, h);
    ClearConcat(req, DnsPart(w, h, promoted), StarcastPart(f, h));
    ClearConcat(req, DnsPart(w, h, promoted) + StarcastPart(f, h), StunPart(w, f, h));
  }

  /** The meshnet peers other than a promoted exit node. */
  function Others(mesh: Request, w: Wanted): Request {
    if w.exitNode.Some? then mesh - {w.exitNode.value.publicKey} else mesh
  }

  lemma ExitStage(mesh: Request, w: Wanted, f: Features, h: Helpers)
    requires DisjointRoutes(mesh) && (w.exitNode.Some? ==> (w.exitNode.value.publicKey in mesh <==> ExitConfigured(w)))
    ensures DisjointRoutes(WithExit(mesh, w, f, h)) <==> Clear(Others(mesh, w), ExitPart(w, f, h))
    ensures forall nets :: Clear(WithExit(mesh, w, f, h), nets) <==>
                           Clear(Others(mesh, w), nets) && !Overlap(ExitPart(w, f, h), nets)
  {
    hide Overlap;
    var all, others, nets := WithExit(mesh, w, f, h), Others(mesh, w), ExitPart(w, f, h);
    assert DisjointRoutes(others) by {
      assert forall j :: j in others ==> others[j] == mesh[j];
    }
    if w.exitNode.Some? && w.exitNode.value.publicKey in all {
      var k := w.exitNode.value.publicKey;
      assert all == others[k := all[k]];
      assert all[k].peer.allowedIps == nets;
      AddRoute(others, k, all[k]);
      ClearAdd(others, k, all[k]);
    } else {
      assert all == others && nets == [];
      forall more: seq<IpNet>
        ensures !Overlap([], more) && !Overlap(more, [])
      {
        EmptyOverlap(more);
      }
    }
  }

  /** No configured peer other than the exit node is routed an address listed as a network of its own. */
  ghost predicate ConfigClear(w: Wanted, f: Features, nets: seq<IpNet>) {
    w.config.Some? && w.config.value.peers.Some? ==>
      forall c: nat, ip :: Routed(w.config.value.peers.value, f, c, ip) && HostNet(ip) in nets ==>
                             PromotedAt(w, ClaimOrder(w.config.value.peers.value), c)
  }

  ghost predicate PromotedAt(w: Wanted, order: seq<ConfigPeer>, c: nat) {
    c < |order| && w.exitNode.Some? && order[c].publicKey == w.exitNode.value.publicKey
  }

  lemma OthersClearIff(w: Wanted, s: Sensors, f: Features, ifc: Interface, nets: seq<IpNet>)
    ensures Clear(Others(MeshPeers(w, s, f, ifc), w), nets) <==> ConfigClear(w, f, nets)
  {
    hide MeshPeers, Routed;
    var mesh := MeshPeers(w, s, f, ifc);
    var others := Others(mesh, w);
    if ConfigClear(w, f, nets) {
      forall k | k in others
        ensures !Overlap(others[k].peer.allowedIps, nets)
      {
        if Overlap(others[k].peer.allowedIps, nets) {
          var i :| 0 <= i < |others[k].peer.allowedIps| && others[k].peer.allowedIps[i] in nets;
          var c := MeshRouteSource(w, s, f, ifc, k, others[k].peer.allowedIps[i]);
        }
      }
    }
    if Clear(others, nets) && w.config.Some? && w.config.value.peers.Some? {
      var peers := w.config.value.peers.value;
      forall c: nat, ip | Routed(peers, f, c, ip) && HostNet(ip) in nets
        ensures PromotedAt(w, ClaimOrder(peers), c)
      {
        RoutedOverlaps(w, s, f, ifc, c, ip, nets);
      }
    }
  }

  lemma RoutedOverlaps(w: Wanted, s: Sensors, f: Features, ifc: Interface, c: nat, ip: IpAddr, nets: seq<IpNet>)
    requires w.config.Some? && w.config.value.peers.Some? && Routed(w.config.value.peers.value, f, c, ip)
    requires HostNet(ip) in nets && Clear(Others(MeshPeers(w, s, f, ifc), w), nets)
    ensures PromotedAt(w, ClaimOrder(w.config.value.peers.value), c)
  {
    hide MeshPeers;
    var mesh, k := MeshPeers(w, s, f, ifc), ClaimOrder(w.config.value.peers.value)[c].publicKey;
    MeshRouteIff(w, s, f, ifc, c, ip);
    var i :| 0 <= i < |mesh[k].peer.allowedIps| && mesh[k].peer.allowedIps[i] == HostNet(ip);
    assert Overlap(mesh[k].peer.allowedIps, nets);
    assert forall j :: j in Others(mesh, w) ==> Others(mesh, w)[j] == mesh[j];
  }

  /**
   With virtual peers that have keys of their own, the complete list passes the allowed-IP check exactly when no
   configured peer other than the exit node is routed a network of the exit node or one reserved for a virtual peer in
   use, and the exit node has none of the reserved networks either.
   */
  lemma CompleteRoutesDisjointIff(w: Wanted, s: Sensors, f: Features, h: Helpers, ifc: Interface)
    requires HelperKeysSeparate(w, h)
    ensures DisjointRoutes(RequestedPeers(w, s, f, h, ifc)) <==>
            && ConfigClear(w, f, ExitPart(w, f, h) + Reserved(w, f, h))
            && !Overlap(ExitPart(w, f, h), Reserved(w, f, h))
  {
    hide MeshPeers, Overlap, WithExit, DisjointRoutes, Clear, WithDns, WithStarcast, WithStun, ConfigClear, ExitPart,
      Reserved, Others;
    var mesh := MeshPeers(w, s, f, ifc);
    MeshKeys(w, s, f, ifc);
    MeshRoutesDisjoint(w, s, f, ifc);
    ExitStage(mesh, w, f, h);
    ExitKeys(mesh, w, f, h);
    HelperStages(WithExit(mesh, w, f, h), w, f, h);
    ClearConcat(Others(mesh, w), ExitPart(w, f, h), Reserved(w, f, h));
    OthersClearIff(w, s, f, ifc, ExitPart(w, f, h) + Reserved(w, f, h));
  }

  lemma MeshKeys(w: Wanted, s: Sensors, f: Features, ifc: Interface)
    ensures forall k :: k in MeshPeers(w, s, f, ifc) <==>
                        && w.config.Some? && w.config.value.peers.Some?
                        && k in ConfiguredKeys(w.config.value.peers.value)
  {
  }

  lemma ExitKeys(mesh: Request, w: Wanted, f: Features, h: Helpers)
    requires forall k :: k in mesh ==> !IsHelperKey(w, h, k)
    requires w.exitNode.Some? ==> !IsHelperKey(w, h, w.exitNode.value.publicKey)
    ensures forall k :: IsHelperKey(w, h, k) ==> k !in WithExit(mesh, w, f, h)
  {
  }

  /** A peer configured with 100.64.0.2, the address of the DNS peer. */
  function ClashingPeer(): ConfigPeer {
    ConfigPeer(7, "a.nord", None, Some([V4(0x64400002)]), true, false, false, false, false)
  }

  /** With DNS on, such a configuration never passes the allowed-IP check. */
  lemma ReservedAddressClashes(w: Wanted, s: Sensors, f: Features, h: Helpers, ifc: Interface)
    requires w.config.Some? && w.config.value.peers == Some([ClashingPeer()]) && w.exitNode.None?
    requires HelperKeysSeparate(w, h) && w.dnsEnabled && h.dns.Some?
    ensures !DisjointRoutes(RequestedPeers(w, s, f, h, ifc))
  {
    hide RequestedPeers, Overlap;
    CompleteRoutesDisjointIff(w, s, f, h, ifc);
    var q, peers, ip := ClashingPeer(), w.config.value.peers.value, V4(0x64400002);
    assert peers[..0] == [] && ClaimOrder(peers) == [q];
    assert [ip][0] == ip && Routed(peers, f, 0, ip);
    assert DnsNets(false)[0] == HostNet(ip);
    assert HostNet(ip) in DnsPart(w, h, false);
    assert !PromotedAt(w, ClaimOrder(peers), 0);
  }
}
