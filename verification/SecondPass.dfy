/** The pass after a successful one, with the request unchanged. */
module SecondPass {
  import opened Basics
  import opened Peers
  import opened WireGuard
  import opened Consolidation
  import opened Convergence
  import opened Deadlocks

  /** The keys whose request carries no keepalive. */
  function Unset(req: Request): set<PublicKey> {
    set k | k in req && req[k].peer.keepalive.None?
  }

  /** Traffic goes on, but nobody touches the settings of the peers. */
  ghost predicate Undisturbed(a: Interface, b: Interface) {
    a.Keys == b.Keys && forall k :: k in a ==> b[k] == a[k].(sinceHandshake := b[k].sinceHandshake)
  }

  /** The same peers are requested. */
  ghost predicate SamePeers(a: Request, b: Request) {
    a.Keys == b.Keys && forall k :: k in a ==> b[k].peer == a[k].peer
  }

  /** A later pass requesting the same peers, reading the interface the first one converged to. */
  ghost predicate Follows(p: Pass, q: Pass) {
    Undisturbed(Converged(p), q.actual) && SamePeers(p.requested, q.requested)
  }

  lemma FollowingPassNeedsWrite(p: Pass, q: Pass)
    requires WellKeyedRequest(p.requested) && Normalised(p.actual) && Follows(p, q)
    ensures PassOps(q) == set k | k in q.requested :: Update(k)
    ensures forall k :: k in q.requested ==> (NeedsWrite(q, k) <==> k in Unset(q.requested))
    ensures Converged(q) == q.actual
  {
    hide Converged, Unset;
    FollowingPassConverged(p, q);
    forall k | k in q.requested
      ensures NeedsWrite(q, k) <==> k in Unset(q.requested)
    {
      FollowingNeedsWrite(p, q, k);
    }
  }

  lemma FollowingNeedsWrite(p: Pass, q: Pass, k: PublicKey)
    requires WellKeyedRequest(p.requested) && Normalised(p.actual) && Follows(p, q) && k in q.requested
    ensures NeedsWrite(q, k) <==> k in Unset(q.requested)
  {
    AgreesIffKeepaliveSet(p, k);
  }

  lemma FollowingPassConverged(p: Pass, q: Pass)
    requires WellKeyedRequest(p.requested) && Normalised(p.actual) && Follows(p, q)
    ensures Converged(q) == q.actual && q.actual.Keys == q.requested.Keys
  {
    forall k | k in q.requested
      ensures Converged(q)[k] == q.actual[k]
    {
      AgreesIffKeepaliveSet(p, k);
    }
  }

  ghost function CallsOf(p: Pass, op: Op): seq<Call>
    requires op in PassOps(p)
  {
    if op.Delete? then [DelPeer(op.key)]
    else if NeedsWrite(p, op.key) then [AddPeer(op.key)] else []
  }

  lemma StepCalls(p: Pass, w: World, op: Op)
    requires WellKeyedRequest(p.requested) && op in PassOps(p) && Step(p, w, op).Done?
    ensures Step(p, w, op).world.calls == w.calls + CallsOf(p, op)
  {
  }

  ghost function CallsFor(p: Pass, ops: seq<Op>): seq<Call>
    requires Elements(ops) <= PassOps(p)
  {
    if ops == [] then []
    else
      var init, last := ops[..|ops| - 1], ops[|ops| - 1];
      assert ops == init + [last];
      ElementsAppend(init, last);
      CallsFor(p, init) + CallsOf(p, last)
  }

  /** The adapter calls of a pass that succeeded: every deletion, and a write for each key that needs one. */
  lemma {:induction false} RunCalls(p: Pass, w: World, ops: seq<Op>)
    requires WellKeyedRequest(p.requested) && Elements(ops) <= PassOps(p)
    requires Run(p, w, ops).Done?
    ensures Run(p, w, ops).world.calls == w.calls + CallsFor(p, ops)
  {
    if ops != [] {
      var init, last := ops[..|ops| - 1], ops[|ops| - 1];
      assert ops == init + [last];
      ElementsAppend(init, last);
      RunSnoc(p, w, init, last);
      RunCalls(p, w, init);
      StepCalls(p, Run(p, w, init).world, last);
    }
  }

  lemma {:induction false} CallsForUpdates(p: Pass, ops: seq<Op>, c: Call)
    requires Elements(ops) <= PassOps(p) && forall i :: 0 <= i < |ops| ==> ops[i].Update?
    ensures c in CallsFor(p, ops) <==>
            c.AddPeer? && Update(c.key) in ops && c.key in p.requested && NeedsWrite(p, c.key)
  {
    if ops != [] {
      var init, last := ops[..|ops| - 1], ops[|ops| - 1];
      assert ops == init + [last];
      ElementsAppend(init, last);
      CallsForUpdates(p, init, c);
      assert last in PassOps(p);
    }
  }

  /**
   The pass after a successful one with the same request always succeeds, leaves the interface as it is,
   deletes nothing, and writes again exactly the peers requested without a keepalive.
   */
  lemma SecondPass(p: Pass, q: Pass, w: World, ops: seq<Op>)
    requires WellKeyedRequest(p.requested) && Normalised(p.actual) && DisjointRoutes(p.requested)
    requires Follows(p, q) && Ready(q, w) && ValidSchedule(q, ops)
    ensures Run(q, w, ops).Done?
    ensures Run(q, w, ops).world.peers == w.peers
    ensures Run(q, w, ops).world.calls == w.calls + CallsFor(q, ops)
    ensures forall c :: c in CallsFor(q, ops) <==> c.AddPeer? && c.key in Unset(p.requested)
  {
    FollowingPassNeedsWrite(p, q);
    SecondPassMovesNothing(p, q);
    EveryOrderSucceedsIff(q, w);
    PassConverges(q, w, ops);
    RunCalls(q, w, ops);
    assert forall i :: 0 <= i < |ops| ==> ops[i] in Elements(ops);
    forall c: Call
      ensures c in CallsFor(q, ops) <==> c.AddPeer? && c.key in Unset(p.requested)
    {
      CallsForUpdates(q, ops, c);
      assert Update(c.key) in ops <==> Update(c.key) in Elements(ops);
    }
  }

  lemma SecondPassMovesNothing(p: Pass, q: Pass)
    requires WellKeyedRequest(p.requested) && Normalised(p.actual) && DisjointRoutes(p.requested)
    requires Follows(p, q)
    ensures NoMovedAddress(q)
  {
    forall j, k | Moves(q, j, k)
      ensures false
    {
      AgreesIffKeepaliveSet(p, j);
    }
  }

  /** So the second pass is silent exactly when every requested peer carries a keepalive. */
  lemma SecondPassSilentIff(p: Pass, q: Pass, w: World, ops: seq<Op>)
    requires WellKeyedRequest(p.requested) && Normalised(p.actual) && DisjointRoutes(p.requested)
    requires Follows(p, q) && Ready(q, w) && ValidSchedule(q, ops)
    ensures Run(q, w, ops).world.calls == w.calls <==>
            forall k :: k in p.requested ==> p.requested[k].peer.keepalive.Some?
  {
    hide Run, CallsFor, Ready, Follows, WellKeyedRequest, DisjointRoutes, Normalised;
    SecondPass(p, q, w, ops);
    var extra := CallsFor(q, ops);
    if extra != [] {
      assert extra[0] in extra && extra[0].key in Unset(p.requested);
    } else {
      assert forall k :: k in Unset(p.requested) ==> AddPeer(k) in extra;
      forall k | k in p.requested
        ensures p.requested[k].peer.keepalive.Some?
      {
        assert k !in Unset(p.requested);
      }
    }
  }
}
