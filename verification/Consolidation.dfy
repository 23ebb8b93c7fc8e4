/**
 One pass of peer consolidation. The pass deletes, inserts and updates peers by walking three hash sets,
 so the order of operations within each phase is arbitrary; a schedule fixes one such order, and `Run`
 gives the outcome of the pass under that schedule, stopping at the first refused `add_peer`.
 */
module Consolidation {
  import opened Basics
  import opened Peers
  import opened WireGuard

  datatype Call = AddPeer(key: PublicKey) | DelPeer(key: PublicKey)

  datatype UpgradeCall = UpgradeCall(
    to: PublicKey, remote: (SocketAddr, Provider), local: (SocketAddr, Provider), session: Session)

  type Tracked = map<PublicKey, nat>

  /** Everything a pass may change: interface, session keeper, adapter calls, upgrade requests sent. */
  datatype World = World(
    peers: Interface, tracked: Option<Tracked>, calls: seq<Call>, upgrades: seq<UpgradeCall>)

  /** What a pass works from: the interface as read at its start, the request and the settings. */
  datatype Pass = Pass(
    actual: Interface, requested: Request, now: Instant, proxies: EndpointMap,
    batching: bool, ipv6: bool, upgradeSync: bool, directKeepalive: nat)

  datatype Op = Delete(key: PublicKey) | Insert(key: PublicKey) | Update(key: PublicKey)

  function Phase(op: Op): nat {
    match op
    case Delete(_) => 0
    case Insert(_) => 1
    case Update(_) => 2
  }

  function PassOps(p: Pass): set<Op> {
    (set k | k in p.actual.Keys - p.requested.Keys :: Delete(k))
    + (set k | k in p.requested.Keys - p.actual.Keys :: Insert(k))
    + (set k | k in p.requested.Keys * p.actual.Keys :: Update(k))
  }

  ghost predicate Phased(ops: seq<Op>) {
    forall i, j :: 0 <= i < j < |ops| ==> Phase(ops[i]) <= Phase(ops[j])
  }

  lemma PhasedConcat(a: seq<Op>, b: seq<Op>, phase: nat)
    requires Phased(a) && Phased(b)
    requires forall op :: op in Elements(a) ==> Phase(op) <= phase
    requires forall op :: op in Elements(b) ==> phase <= Phase(op)
    ensures Phased(a + b)
  {
    assert forall i :: 0 <= i < |a| ==> a[i] in Elements(a);
    assert forall i :: 0 <= i < |b| ==> b[i] in Elements(b);
  }

  lemma PhasedEnumeration(all: set<Op>) returns (ops: seq<Op>)
    ensures Enumerates(ops, all) && Phased(ops)
  {
    ops := [];
    for phase := 0 to 3
      invariant Enumerates(ops, set op | op in all && Phase(op) < phase) && Phased(ops)
    {
      var these := set op | op in all && Phase(op) == phase;
      var more := Enumeration(these);
      assert forall i :: 0 <= i < |more| ==> more[i] in Elements(more);
      EnumeratesConcat(ops, (set op | op in all && Phase(op) < phase), more, these);
      PhasedConcat(ops, more, phase);
      assert (set op | op in all && Phase(op) < phase) + these == set op | op in all && Phase(op) < phase + 1;
      ops := ops + more;
    }
    assert (set op | op in all && Phase(op) < 3) == all;
  }

  /** A complete order of the pass: each operation once, deletions first and updates last. */
  ghost predicate ValidSchedule(p: Pass, ops: seq<Op>) {
    Enumerates(ops, PassOps(p)) && Phased(ops)
  }

  /** A pass can only be run from the state it was computed from. */
  ghost predicate Enabled(p: Pass, op: Op) {
    op in PassOps(p)
  }

  datatype Outcome = Done(world: World) | Failed(world: World)

  /** The session keeper needs an address to ping. */
  predicate HasTarget(ips: seq<IpAddr>, ipv6: bool) {
    exists i :: 0 <= i < |ips| && (ips[i].V4? || ipv6)
  }

  function Pushed(w: World, now: Instant, peer: Peer): World {
    w.(peers := WithPeer(w.peers, now, peer), calls := w.calls + [AddPeer(peer.publicKey)])
  }

  function Track(t: Option<Tracked>, k: PublicKey, interval: nat): Option<Tracked> {
    if t.Some? then Some(t.value[k := interval]) else None
  }

  function Untrack(t: Option<Tracked>, k: PublicKey): Option<Tracked> {
    if t.Some? then Some(t.value - {k}) else None
  }

  function DeleteStep(w: World, k: PublicKey): World {
    w.(peers := w.peers - {k}, tracked := Untrack(w.tracked, k), calls := w.calls + [DelPeer(k)])
  }

  function InsertTracked(p: Pass, t: Option<Tracked>, k: PublicKey, r: RequestedPeer): Option<Tracked> {
    if r.batchingInterval.Some? && HasTarget(r.peer.ipAddresses, p.ipv6)
    then Track(t, k, r.batchingInterval.value)
    else t
  }

  function InsertStep(p: Pass, w: World, k: PublicKey): Outcome
    requires k in p.requested
  {
    var r := p.requested[k];
    if Blocked(w.peers, r.peer) then Failed(w)
    else
      var w1 := Pushed(w, p.now, r.peer);
      Done(w1.(tracked := InsertTracked(p, w1.tracked, k, r)))
  }

  /** Session keeper bookkeeping of a surviving peer, before any upgrade handling. */
  function UpdateTracked(p: Pass, t: Option<Tracked>, k: PublicKey, r: RequestedPeer, a: Peer): Option<Tracked> {
    if t.None? then None
    else if !IsProxying(a, p.proxies) && IsProxying(r.peer, p.proxies) && !p.batching then Untrack(t, k)
    else if r.batchingInterval.Some?
    then
      if (|| Lookup(t.value, k) != r.batchingInterval
          || r.peer.ipAddresses != a.ipAddresses
          || IsProxying(a, p.proxies) != IsProxying(r.peer, p.proxies))
         && HasTarget(r.peer.ipAddresses, p.ipv6)
      then Track(t, k, r.batchingInterval.value)
      else t
    else t
  }

  /** The connection moves from the relay to a direct endpoint in this pass. */
  predicate Upgrades(p: Pass, r: RequestedPeer, a: Peer) {
    IsProxying(a, p.proxies) && !IsProxying(r.peer, p.proxies)
  }

  function UpgradeRequests(p: Pass, r: RequestedPeer, a: Peer): seq<UpgradeCall> {
    if Upgrades(p, r, a) && r.peer.endpoint.Some? && r.endpoint.Some? && p.upgradeSync
    then
      var e := r.endpoint.value;
      [UpgradeCall(r.peer.publicKey, (r.peer.endpoint.value, e.remoteType), (e.localAddress, e.localType), e.session)]
    else []
  }

  function UpgradeTracked(p: Pass, t: Option<Tracked>, r: RequestedPeer, a: Peer): Option<Tracked> {
    if Upgrades(p, r, a) && !p.batching && HasTarget(r.peer.ipAddresses, p.ipv6)
    then Track(t, r.peer.publicKey, r.peer.keepalive.GetOr(p.directKeepalive))
    else t
  }

  function UpdateStep(p: Pass, w: World, k: PublicKey): Outcome
    requires k in p.requested && k in p.actual
  {
    var r, a := p.requested[k], p.actual[k];
    var changed := !ComparePeers(r.peer, a);
    if changed && Blocked(w.peers, r.peer) then Failed(w)
    else
      var w1 := if changed then Pushed(w, p.now, r.peer) else w;
      var t1 := UpdateTracked(p, w1.tracked, k, r, a);
      Done(w1.(tracked := UpgradeTracked(p, t1, r, a), upgrades := w1.upgrades + UpgradeRequests(p, r, a)))
  }

  function Step(p: Pass, w: World, op: Op): Outcome
    requires Enabled(p, op)
  {
    match op
    case Delete(k) => Done(DeleteStep(w, k))
    case Insert(k) => InsertStep(p, w, k)
    case Update(k) => UpdateStep(p, w, k)
  }

  /** The pass under one order of operations; a refused call aborts it where it stands. */
  ghost function Run(p: Pass, w: World, ops: seq<Op>): Outcome
    requires Elements(ops) <= PassOps(p)
  {
    if ops == [] then Done(w)
    else
      var init, last := ops[..|ops| - 1], ops[|ops| - 1];
      assert ops == init + [last];
      var before := (ElementsAppend(init, last); Run(p, w, init));
      if before.Failed? then before else Step(p, before.world, last)
  }

  lemma RunSnoc(p: Pass, w: World, ops: seq<Op>, op: Op)
    requires Elements(ops) <= PassOps(p) && op in PassOps(p)
    ensures Elements(ops + [op]) <= PassOps(p)
    ensures Run(p, w, ops + [op]) ==
            var before := Run(p, w, ops); if before.Failed? then before else Step(p, before.world, op)
  {
    ElementsAppend(ops, op);
    assert (ops + [op])[..|ops|] == ops;
  }

  /** Operations after the failing one are never reached. */
  lemma {:induction false} RunStaysFailed(p: Pass, w: World, ops: seq<Op>, more: seq<Op>)
    requires Elements(ops) <= PassOps(p) && Elements(more) <= PassOps(p)
    requires Run(p, w, ops).Failed?
    ensures Elements(ops + more) <= PassOps(p)
    ensures Run(p, w, ops + more) == Run(p, w, ops)
    decreases |more|
  {
    if more == [] {
      assert ops + more == ops;
    } else {
      var init, last := more[..|more| - 1], more[|more| - 1];
      assert more == init + [last];
      ElementsAppend(init, last);
      RunStaysFailed(p, w, ops, init);
      RunSnoc(p, w, ops + init, last);
      assert ops + more == (ops + init) + [last];
    }
  }

  /** A failed pass stopped at some operation, with exactly the effects of those before it. */
  lemma {:induction false} FailurePoint(p: Pass, w: World, ops: seq<Op>) returns (n: nat)
    requires Elements(ops) <= PassOps(p)
    requires Run(p, w, ops).Failed?
    ensures n < |ops| && Elements(ops[..n]) <= PassOps(p) && ops[n] in PassOps(p)
    ensures Run(p, w, ops[..n]) == Done(Run(p, w, ops).world)
    ensures Step(p, Run(p, w, ops).world, ops[n]) == Failed(Run(p, w, ops).world)
  {
    var init, last := ops[..|ops| - 1], ops[|ops| - 1];
    assert ops == init + [last];
    ElementsAppend(init, last);
    RunSnoc(p, w, init, last);
    if Run(p, w, init).Failed? {
      n := FailurePoint(p, w, init);
      assert init[..n] == ops[..n];
    } else {
      n := |ops| - 1;
    }
  }
}
