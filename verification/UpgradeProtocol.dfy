/**
 Two controllers upgrading the connection between them from the relay to a direct path. Each side ticks, validates
 candidates, sends and receives upgrade requests; messages may be delayed, duplicated or lost.
 */
module UpgradeProtocol {
  import opened Basics
  import opened Peers
  import opened Consolidation
  import opened Endpoints
  import opened Requested
  import opened Cycle

  datatype Pending = Pending(endpoint: SocketAddr, session: Session)

  /**
   One side: its own view of the other peer, the request it has sent, whether that one is still within its expiration
   period, the request it has accepted, and a history of the candidates it ever validated and the relay addresses it
   was ever given. Requests past their period stay until they are removed.
   */
  datatype Node = Node(
    world: World, sent: Option<Pending>, sentLive: bool, received: Option<Pending>, checks: set<Candidate>,
    relays: set<SocketAddr>, sends: nat, expiries: nat)

  datatype System = System(a: Node, b: Node, toA: set<Pending>, toB: set<Pending>)

  datatype Event =
    | Ticks(tick: Tick)
    | Accepts(message: Pending)
    | SentLapses
    | SentExpires
    | ReceivedExpires
    | Learns(checks: set<Candidate>, relays: set<SocketAddr>)
    | Roams(peers: Interface)

  /** What the tick reads about the other peer is what the node knows; the key is used for nothing else. */
  ghost predicate Reads(n: Node, t: Tick, k: PublicKey) {
    && t.before == n.world && ValidTick(t)
    && (k in PassOf(t).requested ==> MeshPeer(t, k))
    && (k in t.sensors.upgradeRequests <==> n.sent.Some? || n.received.Some?)
    && (k in t.sensors.upgradeRequests ==>
          || (n.sent.Some? && t.sensors.upgradeRequests[k] == n.sent.value.endpoint)
          || (n.received.Some? && t.sensors.upgradeRequests[k] == n.received.value.endpoint))
    && (k in t.sensors.checked ==> t.sensors.checked[k] in n.checks)
    && (forall e :: e in ProxyOf(t.sensors, k) ==> e in n.relays)
  }

  /** The tick called for an upgrade of `k`; the request is recorded as sent and a message goes out. */
  ghost predicate Sends(t: Tick, k: PublicKey)
    requires ValidTick(t)
  {
    exists c :: c in NewUpgrades(t) && c.to == k
  }

  ghost predicate TickStep(n: Node, t: Tick, k: PublicKey, m: Node, out: set<Pending>) {
    && Reads(n, t, k)
    && if Sends(t, k)
       then exists c :: c in NewUpgrades(t) && c.to == k
                        && m == n.(world := After(t).world, sent := Some(Pending(c.remote.0, c.session)),
                                   sentLive := true, sends := n.sends + 1)
                        && out == {Pending(c.local.0, c.session)}
       else m == n.(world := After(t).world) && out == {}
  }

  /** The interface may move the peer to another endpoint by itself, which it records as such. */
  ghost predicate RoamStep(before: Interface, after: Interface, k: PublicKey) {
    && after.Keys == before.Keys && WellKeyed(after)
    && (k in after ==>
          || (after[k].endpoint == before[k].endpoint && after[k].endpointChangedAt == before[k].endpointChangedAt)
          || (after[k].endpointChangedAt.Some? && after[k].endpointChangedAt.value.1 == Pull))
  }

  /** Of two concurrent requests that of the smaller key wins: its sender declines the other while its own lasts. */
  predicate Prevails(n: Node, self: PublicKey, k: PublicKey) {
    n.sent.Some? && n.sentLive && self <= k
  }

  ghost predicate NodeStep(
      n: Node, inbox: set<Pending>, self: PublicKey, k: PublicKey, e: Event, m: Node, out: set<Pending>)
  {
    match e
    case Ticks(t) => TickStep(n, t, k, m, out)
    case Accepts(msg) => msg in inbox && !Prevails(n, self, k) && m == n.(received := Some(msg)) && out == {}
    case SentLapses => m == n.(sentLive := false) && out == {}
    case SentExpires => n.sent.Some? && !n.sentLive && m == n.(sent := None, expiries := n.expiries + 1) && out == {}
    case ReceivedExpires => m == n.(received := None) && out == {}
    case Learns(checks, relays) => m == n.(checks := n.checks + checks, relays := n.relays + relays) && out == {}
    case Roams(peers) => RoamStep(n.world.peers, peers, k) && m == n.(world := n.world.(peers := peers)) && out == {}
  }

  /** One of the two sides moves; `keyA` is what B calls A and `keyB` what A calls B. */
  ghost predicate Next(s: System, s': System, keyA: PublicKey, keyB: PublicKey) {
    || (exists e, out :: NodeStep(s.a, s.toA, keyA, keyB, e, s'.a, out)
                         && s'.b == s.b && s'.toA == s.toA && s'.toB == s.toB + out)
    || (exists e, out :: NodeStep(s.b, s.toB, keyB, keyA, e, s'.b, out)
                         && s'.a == s.a && s'.toB == s.toB && s'.toA == s.toA + out)
  }

  /** Endpoints towards the other side, and towards this side, that a node has validated. */
  function Remotes(checks: set<Candidate>): set<Pending> {
    set c | c in checks :: Pending(c.remote.0, c.session)
  }

  function Locals(checks: set<Candidate>): set<Pending> {
    set c | c in checks :: Pending(c.local.0, c.session)
  }

  /** Where an endpoint may legitimately come from: the relay, the node's own checks or the other side's own checks. */
  ghost predicate Legitimate(n: Node, other: Node, e: SocketAddr) {
    || e in n.relays
    || (exists p :: p in Remotes(n.checks) && p.endpoint == e)
    || (exists p :: p in Locals(other.checks) && p.endpoint == e)
  }

  ghost predicate Justified(n: Node, other: Node, k: PublicKey) {
    && WellKeyed(n.world.peers)
    && (n.sent.Some? ==> n.sent.value in Remotes(n.checks))
    && (n.received.Some? ==> n.received.value in Locals(other.checks))
    && (k in n.world.peers ==> SetByUs(n.world.peers[k]) ==> Legitimate(n, other, n.world.peers[k].endpoint.value))
    && n.sends == n.expiries + if n.sent.Some? then 1 else 0
  }

  /** The peer's endpoint was written by the controller rather than observed. */
  predicate SetByUs(p: Peer) {
    p.endpoint.Some? && p.endpointChangedAt.Some? && p.endpointChangedAt.value.1 == Push
  }

  /** Torn between its own request, still lasting, and one accepted from the other side. */
  predicate Torn(n: Node) {
    n.sent.Some? && n.sentLive && n.received.Some?
  }

  ghost predicate Safe(s: System, keyA: PublicKey, keyB: PublicKey) {
    && Justified(s.a, s.b, keyB) && Justified(s.b, s.a, keyA)
    && s.toB <= Locals(s.a.checks) && s.toA <= Locals(s.b.checks)
    && (Torn(s.a) ==> keyB < keyA) && (Torn(s.b) ==> keyA < keyB)
  }

  lemma LegitimateMonotone(n: Node, other: Node, n': Node, other': Node, e: SocketAddr)
    requires Legitimate(n, other, e)
    requires n.relays <= n'.relays && n.checks <= n'.checks && other.checks <= other'.checks
    ensures Legitimate(n', other', e)
  {
    if p :| p in Remotes(n.checks) && p.endpoint == e {
      assert p in Remotes(n'.checks);
    }
    if p :| p in Locals(other.checks) && p.endpoint == e {
      assert p in Locals(other'.checks);
    }
  }

  /** The endpoint a tick asks for is the current one or a legitimate one. */
  lemma ChoiceLegitimate(n: Node, other: Node, t: Tick, k: PublicKey)
    requires Justified(n, other, k) && Reads(n, t, k) && k in PassOf(t).requested
    requires PassOf(t).requested[k].peer.endpoint.Some?
    ensures || Legitimate(n, other, PassOf(t).requested[k].peer.endpoint.value)
            || (k in n.world.peers && PassOf(t).requested[k].peer.endpoint == n.world.peers[k].endpoint)
  {
    hide RequestedPeers, Choose, ValidTick, After;
    MeshChoice(t, k);
    ChoiceSources(ObservationOf(t, k), Lookup(t.sensors.checked, k), Lookup(t.sensors.upgradeRequests, k));
    var e := ChoiceOf(t, k).0.value;
    if k in t.sensors.upgradeRequests && t.sensors.upgradeRequests[k] == e {
      if n.sent.Some? && e == n.sent.value.endpoint {
        assert n.sent.value in Remotes(n.checks);
      } else {
        assert n.received.value in Locals(other.checks);
      }
    } else if k in t.sensors.checked && t.sensors.checked[k].remote.0 == e {
      assert Pending(e, t.sensors.checked[k].session) in Remotes(n.checks);
    }
  }

  lemma TickJustified(n: Node, other: Node, t: Tick, k: PublicKey)
    requires Justified(n, other, k) && Reads(n, t, k)
    ensures WellKeyed(After(t).world.peers)
    ensures k in After(t).world.peers && SetByUs(After(t).world.peers[k]) ==>
              Legitimate(n, other, After(t).world.peers[k].endpoint.value)
  {
    hide RequestedPeers, Legitimate, Observe;
    RequestWellKeyed(t.wanted, t.sensors, t.features, t.helpers, t.before.peers);
    var done := StateOfRun(PassOf(t), t.before, t.ops);
    if k in After(t).world.peers && SetByUs(After(t).world.peers[k]) {
      if k in PassOf(t).requested && PassOf(t).requested[k].peer.endpoint.Some? {
        ChoiceLegitimate(n, other, t, k);
      }
      if k in t.before.peers && k in PassOf(t).requested {
        TickEndpoint(t, k);
      }
    }
  }

  lemma StepJustified(
      n: Node, other: Node, inbox: set<Pending>, self: PublicKey, k: PublicKey, e: Event, m: Node, out: set<Pending>)
    requires Justified(n, other, k) && inbox <= Locals(other.checks)
    requires NodeStep(n, inbox, self, k, e, m, out)
    ensures Justified(m, other, k)
    ensures (Torn(n) ==> k < self) ==> (Torn(m) ==> k < self)
    ensures n.checks <= m.checks && out <= Locals(m.checks)
  {
    match e
    case Ticks(t) =>
      TickJustified(n, other, t, k);
      if k in m.world.peers && SetByUs(m.world.peers[k]) {
        LegitimateMonotone(n, other, m, other, m.world.peers[k].endpoint.value);
      }
      if Sends(t, k) {
        SendJustified(n, t, k);
      }
    case Learns(checks, relays) =>
      if k in m.world.peers && SetByUs(m.world.peers[k]) {
        LegitimateMonotone(n, other, m, other, m.world.peers[k].endpoint.value);
      }
    case Accepts(_) =>
    case SentLapses =>
    case SentExpires =>
    case ReceivedExpires =>
    case Roams(_) =>
  }

  /** A request is only ever sent with nothing pending, and describes a candidate of the sender's own. */
  lemma SendJustified(n: Node, t: Tick, k: PublicKey)
    requires Reads(n, t, k) && Sends(t, k)
    ensures n.sent.None? && n.received.None?
    ensures k in t.before.peers && Relayed(ObservationOf(t, k))
    ensures forall c :: c in NewUpgrades(t) && c.to == k ==>
                          && Pending(c.remote.0, c.session) in Remotes(n.checks)
                          && Pending(c.local.0, c.session) in Locals(n.checks)
  {
    forall c | c in NewUpgrades(t) && c.to == k
      ensures k in t.before.peers && Relayed(ObservationOf(t, k)) && k !in t.sensors.upgradeRequests
      ensures Pending(c.remote.0, c.session) in Remotes(n.checks)
      ensures Pending(c.local.0, c.session) in Locals(n.checks)
    {
      UpgradeIsOwnCheck(t, c);
    }
  }

  lemma OtherJustified(n: Node, other: Node, other': Node, k: PublicKey)
    requires Justified(n, other, k) && other.checks <= other'.checks
    ensures Justified(n, other', k)
  {
    if k in n.world.peers && SetByUs(n.world.peers[k]) {
      LegitimateMonotone(n, other, n, other', n.world.peers[k].endpoint.value);
    }
  }

  lemma NextSafe(s: System, s': System, keyA: PublicKey, keyB: PublicKey)
    requires Safe(s, keyA, keyB) && Next(s, s', keyA, keyB)
    ensures Safe(s', keyA, keyB)
  {
    if e, out :| NodeStep(s.a, s.toA, keyA, keyB, e, s'.a, out) && s'.b == s.b && s'.toA == s.toA
                 && s'.toB == s.toB + out
    {
      StepJustified(s.a, s.b, s.toA, keyA, keyB, e, s'.a, out);
      OtherJustified(s.b, s.a, s'.a, keyA);
    } else {
      var e, out :| NodeStep(s.b, s.toB, keyB, keyA, e, s'.b, out) && s'.a == s.a && s'.toB == s.toB
                    && s'.toA == s.toA + out;
      StepJustified(s.b, s.a, s.toB, keyB, keyA, e, s'.b, out);
      OtherJustified(s.a, s.b, s'.b, keyB);
    }
  }

  ghost predicate Initial(s: System) {
    && WellKeyed(s.a.world.peers) && WellKeyed(s.b.world.peers)
    && s.a.sent == s.a.received == s.b.sent == s.b.received == None
    && s.a.world.peers == s.b.world.peers == map[]
    && s.toA == s.toB == {}
    && s.a.sends == s.a.expiries == s.b.sends == s.b.expiries == 0
  }

  /**
   In every run of the two controllers: an endpoint a controller wrote is a relay address, one it validated itself or
   one the other side validated as its own; requests in flight describe the sender's own candidates; a side has at most
   one request outstanding; and the two sides never both give up their own lasting request for the other's.
   */
  lemma {:induction false} RunsAreSafe(run: seq<System>, keyA: PublicKey, keyB: PublicKey, n: nat)
    requires n < |run| && Initial(run[0])
    requires forall i :: 0 <= i < |run| - 1 ==> Next(run[i], run[i + 1], keyA, keyB)
    ensures Safe(run[n], keyA, keyB)
    ensures !(Torn(run[n].a) && Torn(run[n].b))
  {
    if n > 0 {
      RunsAreSafe(run, keyA, keyB, n - 1);
      NextSafe(run[n - 1], run[n], keyA, keyB);
    }
  }

  /** A side holding an accepted request moves onto it, or keeps its direct endpoint, without sending anything back. */
  lemma NoEcho(n: Node, t: Tick, k: PublicKey, m: Node, out: set<Pending>)
    requires TickStep(n, t, k, m, out) && n.received.Some?
    ensures out == {} && m.sends == n.sends && m.sent == n.sent
  {
    if Sends(t, k) {
      SendJustified(n, t, k);
    }
  }
}
