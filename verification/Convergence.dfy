/**
 What a whole pass achieves, for every order in which its hash sets may be walked: the interface after any part of
 it, and the one every successful pass converges to.
 */
module Convergence {
  import opened Basics
  import opened Peers
  import opened WireGuard
  import opened Consolidation

  /** The pass starts from the interface it read, and its request passed the allowed-IP check. */
  ghost predicate Ready(p: Pass, w: World) {
    && w.peers == p.actual
    && WellKeyed(p.actual)
    && WellKeyedRequest(p.requested)
    && DisjointRoutes(p.requested)
  }

  /** `k` is written: it is new, or differs from what the interface holds. */
  predicate NeedsWrite(p: Pass, k: PublicKey)
    requires k in p.requested
  {
    k !in p.actual || !ComparePeers(p.requested[k].peer, p.actual[k])
  }

  /** The interface every successful pass ends in. */
  function Converged(p: Pass): Interface {
    map k | k in p.requested ::
      if NeedsWrite(p, k) then Stored(p.actual, p.now, p.requested[k].peer) else p.actual[k]
  }

  // ---- The interface in the middle of a pass, as a function of the operations done so far ----

  ghost predicate Present(p: Pass, done: set<Op>, k: PublicKey) {
    if k in p.actual then Delete(k) !in done else k in p.requested && Insert(k) in done
  }

  ghost predicate Written(p: Pass, done: set<Op>, k: PublicKey) {
    k in p.requested && NeedsWrite(p, k) && (Insert(k) in done || Update(k) in done)
  }

  ghost function PeersAfter(p: Pass, done: set<Op>): Interface {
    map k | k in p.actual.Keys + p.requested.Keys && Present(p, done, k) ::
      if Written(p, done, k) then Stored(p.actual, p.now, p.requested[k].peer) else p.actual[k]
  }

  lemma AfterDelete(p: Pass, done: set<Op>, k: PublicKey)
    requires k in p.actual
    ensures PeersAfter(p, done + {Delete(k)}) == PeersAfter(p, done) - {k}
  {
    forall j
      ensures Written(p, done + {Delete(k)}, j) == Written(p, done, j)
      ensures Present(p, done + {Delete(k)}, j) == (Present(p, done, j) && j != k)
    {
    }
  }

  lemma AfterWrite(p: Pass, done: set<Op>, op: Op)
    requires op in PassOps(p) && !op.Delete? && NeedsWrite(p, op.key)
    requires Delete(op.key) !in done
    ensures PeersAfter(p, done + {op}) ==
            PeersAfter(p, done)[op.key := Stored(p.actual, p.now, p.requested[op.key].peer)]
  {
    forall j
      ensures Written(p, done + {op}, j) == (Written(p, done, j) || j == op.key)
      ensures Present(p, done + {op}, j) == (Present(p, done, j) || j == op.key)
    {
    }
  }

  lemma AfterSame(p: Pass, done: set<Op>, k: PublicKey)
    requires k in p.requested && k in p.actual && !NeedsWrite(p, k)
    ensures PeersAfter(p, done + {Update(k)}) == PeersAfter(p, done)
  {
    forall j
      ensures Written(p, done + {Update(k)}, j) == Written(p, done, j)
      ensures Present(p, done + {Update(k)}, j) == Present(p, done, j)
    {
    }
  }

  lemma StepEffect(p: Pass, w: World, done: set<Op>, op: Op)
    requires WellKeyedRequest(p.requested)
    requires done <= PassOps(p) && op in PassOps(p) - done
    requires w.peers == PeersAfter(p, done)
    ensures Step(p, w, op).Done? ==> Step(p, w, op).world.peers == PeersAfter(p, done + {op})
    ensures Step(p, w, op).Failed? ==> Step(p, w, op).world == w
  {
    var k := op.key;
    if op.Delete? {
      AfterDelete(p, done, k);
    } else {
      assert Delete(k) !in PassOps(p);
      assert Lookup(w.peers, k) == Lookup(p.actual, k);
      if NeedsWrite(p, k) {
        AfterWrite(p, done, op);
        assert Stored(w.peers, p.now, p.requested[k].peer) == Stored(p.actual, p.now, p.requested[k].peer);
      } else {
        AfterSame(p, done, k);
      }
    }
  }

  lemma {:induction false} RunEffect(p: Pass, w: World, ops: seq<Op>)
    requires w.peers == p.actual && WellKeyedRequest(p.requested)
    requires Distinct(ops) && Elements(ops) <= PassOps(p)
    ensures Run(p, w, ops).Done? ==> Run(p, w, ops).world.peers == PeersAfter(p, Elements(ops))
  {
    if ops == [] {
      assert PeersAfter(p, {}) == p.actual;
    } else {
      var init, last := ops[..|ops| - 1], ops[|ops| - 1];
      assert ops == init + [last];
      ElementsAppend(init, last);
      RunEffect(p, w, init);
      RunSnoc(p, w, init, last);
      if Run(p, w, init).Done? {
        StepEffect(p, Run(p, w, init).world, Elements(init), last);
      }
    }
  }

  lemma AllDone(p: Pass)
    ensures PeersAfter(p, PassOps(p)) == Converged(p)
  {
    forall k | k in p.actual.Keys + p.requested.Keys
      ensures Present(p, PassOps(p), k) <==> k in p.requested
      ensures k in p.requested ==> (Written(p, PassOps(p), k) <==> NeedsWrite(p, k))
    {
      if k in p.actual {
        assert Delete(k) in PassOps(p) <==> k !in p.requested;
        assert k in p.requested ==> Update(k) in PassOps(p);
      } else {
        assert Insert(k) in PassOps(p);
      }
    }
  }

  /** Every order of a pass that succeeds ends in the same interface, holding exactly the requested keys. */
  lemma PassConverges(p: Pass, w: World, ops: seq<Op>)
    requires Ready(p, w) && ValidSchedule(p, ops)
    requires Run(p, w, ops).Done?
    ensures Run(p, w, ops).world.peers == Converged(p)
    ensures Converged(p).Keys == p.requested.Keys
    ensures Normalised(p.actual) ==> ValidInterface(Converged(p))
  {
    hide PassOps, Stored, DisjointRoutes;
    RunEffect(p, w, ops);
    AllDone(p);
    ConvergedValid(p);
  }

  lemma ConvergedValid(p: Pass)
    requires WellKeyed(p.actual) && WellKeyedRequest(p.requested) && DisjointRoutes(p.requested)
    ensures Normalised(p.actual) ==> ValidInterface(Converged(p))
  {
    forall k | k in p.requested
      ensures Converged(p)[k].allowedIps == p.requested[k].peer.allowedIps
      ensures Converged(p)[k].publicKey == k
      ensures Normalised(p.actual) ==> Converged(p)[k].keepalive.Some?
    {
    }
  }

  /**
   A converged peer agrees with its request exactly when the request carries a keepalive: `add_peer`
   stores zero where the request has none, and the comparison tells the two apart.
   */
  lemma AgreesIffKeepaliveSet(p: Pass, k: PublicKey)
    requires WellKeyedRequest(p.requested) && Normalised(p.actual) && k in p.requested
    ensures ComparePeers(p.requested[k].peer, Converged(p)[k]) <==> p.requested[k].peer.keepalive.Some?
    ensures Converged(p)[k].endpoint == p.requested[k].peer.endpoint
    ensures Converged(p)[k].allowedIps == p.requested[k].peer.allowedIps
    ensures Converged(p)[k].presharedKey == p.requested[k].peer.presharedKey
    ensures Converged(p)[k].keepalive == Some(p.requested[k].peer.keepalive.GetOr(0))
  {
  }

  lemma PrefixOf(ops: seq<Op>, n: nat, all: set<Op>)
    requires Enumerates(ops, all) && n < |ops|
    ensures Distinct(ops[..n]) && Elements(ops[..n]) <= all && ops[n] in all && ops[n] !in Elements(ops[..n])
  {
    assert forall x :: x in ops[..n] ==> x in ops;
    assert ops[n] in Elements(ops);
  }

  lemma SurvivorPresent(p: Pass, done: set<Op>, k: PublicKey)
    requires done <= PassOps(p) && k in p.actual && k in p.requested
    ensures Present(p, done, k) && Insert(k) !in done
    ensures Update(k) !in done ==> k in PeersAfter(p, done) && PeersAfter(p, done)[k] == p.actual[k]
  {
    assert Delete(k) !in PassOps(p) && Insert(k) !in PassOps(p);
  }

  // ---- What every operation keeps ----

  /** Whatever is written, and wherever a pass stops, no network is ever routed to two peers of the interface. */
  lemma PushKeepsValid(ifc: Interface, now: Instant, peer: Peer)
    requires ValidInterface(ifc) && !Blocked(ifc, peer)
    ensures ValidInterface(WithPeer(ifc, now, peer))
  {
    var next := WithPeer(ifc, now, peer);
    forall j, k | j in next && k in next && j != k
      ensures !Overlap(next[j].allowedIps, next[k].allowedIps)
    {
      OverlapSymmetric(next[j].allowedIps, next[k].allowedIps);
      if j == peer.publicKey {
        assert k in ifc && ifc[k].publicKey != peer.publicKey;
      } else if k == peer.publicKey {
        assert j in ifc && ifc[j].publicKey != peer.publicKey;
      }
    }
  }

  lemma StepKeepsValid(p: Pass, w: World, op: Op)
    requires op in PassOps(p) && ValidInterface(w.peers)
    ensures ValidInterface(Step(p, w, op).world.peers)
  {
    if !op.Delete? && !Blocked(w.peers, p.requested[op.key].peer) {
      hide ValidInterface;
      PushKeepsValid(w.peers, p.now, p.requested[op.key].peer);
    }
  }

  lemma {:induction false} RunKeepsValid(p: Pass, w: World, ops: seq<Op>)
    requires Elements(ops) <= PassOps(p) && ValidInterface(w.peers)
    ensures ValidInterface(Run(p, w, ops).world.peers)
  {
    hide ValidInterface, PassOps, Step;
    if ops != [] {
      var init, last := ops[..|ops| - 1], ops[|ops| - 1];
      assert ops == init + [last];
      ElementsAppend(init, last);
      RunSnoc(p, w, init, last);
      RunKeepsValid(p, w, init);
      if Run(p, w, init).Done? {
        StepKeepsValid(p, Run(p, w, init).world, last);
      }
    }
  }
}
