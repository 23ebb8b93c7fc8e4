/** The controller object: the stores a pass updates in place, and the pass itself. */
module Controller {
  import opened Basics
  import opened Peers
  import opened WireGuard
  import opened Consolidation
  import opened AllowedIps

  /** `BadAllowedIps` rejects the request outright; `Refused` is an `add_peer` that found a network taken. */
  datatype PassResult = Applied | BadAllowedIps | Refused

  class Controller {
    var peers: Interface
    var tracked: Option<Tracked>
    var calls: seq<Call>
    var upgrades: seq<UpgradeCall>

    constructor (tracked: Option<Tracked>)
      ensures peers == map[] && this.tracked == tracked && calls == [] && upgrades == []
    {
      peers, calls, upgrades := map[], [], [];
      this.tracked := tracked;
    }

    ghost function View(): World
      reads this
    {
      World(peers, tracked, calls, upgrades)
    }

    method AddPeer(now: Instant, peer: Peer) returns (ok: bool)
      modifies this`peers, this`calls
      ensures ok == !Blocked(old(peers), peer)
      ensures View() == if ok then Pushed(old(View()), now, peer) else old(View())
    {
      ok := !Blocked(peers, peer);
      if ok {
        peers := peers[peer.publicKey := Stored(peers, now, peer)];
        calls := calls + [Call.AddPeer(peer.publicKey)];
      }
    }

    method DelPeer(key: PublicKey)
      modifies this`peers, this`calls
      ensures peers == old(peers) - {key} && calls == old(calls) + [Call.DelPeer(key)]
    {
      peers := peers - {key};
      calls := calls + [Call.DelPeer(key)];
    }

    method Remove(key: PublicKey)
      modifies this
      ensures View() == DeleteStep(old(View()), key)
    {
      DelPeer(key);
      if tracked.Some? {
        tracked := Some(tracked.value - {key});
      }
    }

    method Add(p: Pass, key: PublicKey) returns (ok: bool)
      requires key in p.requested
      modifies this
      ensures InsertStep(p, old(View()), key) == if ok then Done(View()) else Failed(View())
    {
      var r := p.requested[key];
      ok := AddPeer(p.now, r.peer);
      if !ok {
        return;
      }
      if tracked.Some? && r.batchingInterval.Some? {
        if HasTarget(r.peer.ipAddresses, p.ipv6) {
          tracked := Some(tracked.value[key := r.batchingInterval.value]);
        }
      }
    }

    method Refresh(p: Pass, key: PublicKey) returns (ok: bool)
      requires key in p.requested && key in p.actual
      modifies this
      ensures UpdateStep(p, old(View()), key) == if ok then Done(View()) else Failed(View())
    {
      var r, a := p.requested[key], p.actual[key];
      ok := true;
      if !ComparePeers(r.peer, a) {
        ok := AddPeer(p.now, r.peer);
        if !ok {
          return;
        }
      }
      var wasProxying, willProxy := IsProxying(a, p.proxies), IsProxying(r.peer, p.proxies);
      var target := HasTarget(r.peer.ipAddresses, p.ipv6);
      if tracked.Some? {
        if !wasProxying && willProxy && !p.batching {
          tracked := Some(tracked.value - {key});
        } else if r.batchingInterval.Some? {
          if Lookup(tracked.value, key) != r.batchingInterval || r.peer.ipAddresses != a.ipAddresses
             || wasProxying != willProxy
          {
            if target {
              tracked := Some(tracked.value[key := r.batchingInterval.value]);
            }
          }
        }
      }
      if wasProxying && !willProxy {
        if r.peer.endpoint.Some? && r.endpoint.Some? && p.upgradeSync {
          var e := r.endpoint.value;
          upgrades := upgrades +
          [UpgradeCall(r.peer.publicKey, (r.peer.endpoint.value, e.remoteType), (e.localAddress, e.localType),
                       e.session)];
        }
        if !p.batching && tracked.Some? && target {
          tracked := Some(tracked.value[r.peer.publicKey := r.peer.keepalive.GetOr(p.directKeepalive)]);
        }
      }
    }

    /**
     The pass. Each loop takes the keys in an order of its own choosing; the ghost result records the
     order taken, completed arbitrarily when the pass aborts.
     */
    method ConsolidatePeers(p: Pass, order: seq<PublicKey>) returns (r: PassResult, ghost ops: seq<Op>)
      requires p.actual == peers && Enumerates(order, p.requested.Keys)
      modifies this
      ensures r == BadAllowedIps <==> !DisjointRoutes(p.requested)
      ensures r == BadAllowedIps ==> View() == old(View())
      ensures r != BadAllowedIps ==>
                && ValidSchedule(p, ops)
                && Run(p, old(View()), ops) == if r == Applied then Done(View()) else Failed(View())
    {
      CheckAcceptsIff(p.requested, order);
      ops := [];
      if !CheckAllowedIps(p.requested, order) {
        return BadAllowedIps, ops;
      }
      ghost var start := View();
      ops := RemoveAll(p, start);
      var ok;
      ok, ops := AddAll(p, start, ops);
      if ok {
        ok, ops := RefreshAll(p, start, ops);
      }
      r := if ok then Applied else Refused;
    }

    method RemoveAll(p: Pass, ghost start: World) returns (ghost ops: seq<Op>)
      requires View() == start
      modifies this
      ensures Partial(p, ops, 1, p.requested.Keys - p.actual.Keys)
      ensures Run(p, start, ops) == Done(View())
    {
      ops := [];
      var deletes := p.actual.Keys - p.requested.Keys;
      while deletes != {}
        invariant deletes <= p.actual.Keys - p.requested.Keys
        invariant Partial(p, ops, 0, deletes)
        invariant Run(p, start, ops) == Done(View())
        decreases deletes
      {
        var key :| key in deletes;
        Extend(p, start, ops, Delete(key), deletes);
        Remove(key);
        ops, deletes := ops + [Delete(key)], deletes - {key};
      }
      NextPhase(p, ops, 0, p.requested.Keys - p.actual.Keys);
    }

    method AddAll(p: Pass, ghost start: World, ghost done: seq<Op>) returns (ok: bool, ghost ops: seq<Op>)
      requires Partial(p, done, 1, p.requested.Keys - p.actual.Keys)
      requires Run(p, start, done) == Done(View())
      modifies this
      ensures ok ==> Partial(p, ops, 2, p.requested.Keys * p.actual.Keys) && Run(p, start, ops) == Done(View())
      ensures !ok ==> ValidSchedule(p, ops) && Run(p, start, ops) == Failed(View())
    {
      ops := done;
      var inserts := p.requested.Keys - p.actual.Keys;
      while inserts != {}
        invariant inserts <= p.requested.Keys - p.actual.Keys
        invariant Partial(p, ops, 1, inserts)
        invariant Run(p, start, ops) == Done(View())
        decreases inserts
      {
        var key :| key in inserts;
        Extend(p, start, ops, Insert(key), inserts);
        ok := Add(p, key);
        ops, inserts := ops + [Insert(key)], inserts - {key};
        if !ok {
          ops := Complete(p, start, ops, 1, inserts);
          return;
        }
      }
      ok := true;
      NextPhase(p, ops, 1, p.requested.Keys * p.actual.Keys);
    }

    method RefreshAll(p: Pass, ghost start: World, ghost done: seq<Op>) returns (ok: bool, ghost ops: seq<Op>)
      requires Partial(p, done, 2, p.requested.Keys * p.actual.Keys)
      requires Run(p, start, done) == Done(View())
      modifies this
      ensures ValidSchedule(p, ops)
      ensures Run(p, start, ops) == if ok then Done(View()) else Failed(View())
    {
      ops := done;
      var updates := p.requested.Keys * p.actual.Keys;
      while updates != {}
        invariant updates <= p.requested.Keys * p.actual.Keys
        invariant Partial(p, ops, 2, updates)
        invariant Run(p, start, ops) == Done(View())
        decreases updates
      {
        var key :| key in updates;
        Extend(p, start, ops, Update(key), updates);
        ok := Refresh(p, key);
        ops, updates := ops + [Update(key)], updates - {key};
        if !ok {
          ops := Complete(p, start, ops, 2, updates);
          return;
        }
      }
      ok := true;
      assert Elements(ops) == PassOps(p);
    }
  }

  /** The operations so far: all of the earlier phases, and this phase except for the pending keys. */
  ghost predicate Partial(p: Pass, ops: seq<Op>, phase: nat, pending: set<PublicKey>) {
    && Distinct(ops) && Phased(ops)
    && forall op :: op in Elements(ops) <==>
                      op in PassOps(p) && (Phase(op) < phase || (Phase(op) == phase && op.key !in pending))
  }

  lemma Extend(p: Pass, w: World, ops: seq<Op>, op: Op, pending: set<PublicKey>)
    requires Partial(p, ops, Phase(op), pending) && op.key in pending && op in PassOps(p)
    requires Run(p, w, ops).Done?
    ensures Partial(p, ops + [op], Phase(op), pending - {op.key})
    ensures Elements(ops + [op]) <= PassOps(p)
    ensures Run(p, w, ops + [op]) == Step(p, Run(p, w, ops).world, op)
  {
    PartialExtend(p, ops, op, pending);
    RunSnoc(p, w, ops, op);
  }

  lemma PartialExtend(p: Pass, ops: seq<Op>, op: Op, pending: set<PublicKey>)
    requires Partial(p, ops, Phase(op), pending) && op.key in pending && op in PassOps(p)
    ensures Partial(p, ops + [op], Phase(op), pending - {op.key})
  {
    hide PassOps;
    ElementsAppend(ops, op);
    assert Elements([op]) == {op};
    PhasedConcat(ops, [op], Phase(op));
    forall o
      ensures o in Elements(ops + [op]) <==>
              o in PassOps(p) && (Phase(o) < Phase(op) || (Phase(o) == Phase(op) && o.key !in pending - {op.key}))
    {
      assert Phase(o) == Phase(op) && o.key == op.key ==> o == op;
    }
  }

  lemma NextPhase(p: Pass, ops: seq<Op>, phase: nat, pending: set<PublicKey>)
    requires Partial(p, ops, phase, {})
    requires forall op :: op in PassOps(p) && Phase(op) == phase + 1 ==> op.key in pending
    ensures Partial(p, ops, phase + 1, pending)
  {
  }

  /** After an abort, any order of what was left over completes the schedule without changing the outcome. */
  lemma Complete(p: Pass, w: World, ops: seq<Op>, phase: nat, pending: set<PublicKey>) returns (all: seq<Op>)
    requires Partial(p, ops, phase, pending) && Elements(ops) <= PassOps(p)
    requires Run(p, w, ops).Failed?
    ensures ValidSchedule(p, all) && Run(p, w, all) == Run(p, w, ops)
  {
    var left := PassOps(p) - Elements(ops);
    var rest := PhasedEnumeration(left);
    EnumeratesConcat(ops, Elements(ops), rest, left);
    PhasedConcat(ops, rest, phase);
    assert Elements(ops) + left == PassOps(p);
    RunStaysFailed(p, w, ops, rest);
    all := ops + rest;
  }
}
