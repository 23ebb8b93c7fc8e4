/** Agreement between the session keeper and the WireGuard interface, over single passes and over runs. */
module SessionKeeping {
  import opened Basics
  import opened Peers
  import opened Consolidation
  import opened Convergence
  import opened Requested
  import opened Cycle

  /** Nothing is kept alive that WireGuard does not know. */
  ghost predicate Contained(w: World) {
    w.tracked.Some? ==> w.tracked.value.Keys <= w.peers.Keys
  }

  lemma StepContained(p: Pass, w: World, done: set<Op>, op: Op)
    requires WellKeyedRequest(p.requested) && done <= PassOps(p) && op in PassOps(p) - done
    requires w.peers == PeersAfter(p, done) && Contained(w)
    ensures Contained(Step(p, w, op).world)
  {
    StepEffect(p, w, done, op);
    var next := Step(p, w, op).world;
    if op.Update? {
      SurvivorPresent(p, done, op.key);
      SurvivorPresent(p, done + {op}, op.key);
      UpdateTouchesOnly(p, w, op.key);
    }
  }

  lemma UpdateTouchesOnly(p: Pass, w: World, k: PublicKey)
    requires WellKeyedRequest(p.requested) && k in p.requested && k in p.actual
    ensures UpdateStep(p, w, k).world.tracked.Some? <==> w.tracked.Some?
    ensures w.tracked.Some? ==> UpdateStep(p, w, k).world.tracked.value.Keys <= w.tracked.value.Keys + {k}
    ensures w.tracked.Some? ==>
              forall j :: j != k ==> Lookup(UpdateStep(p, w, k).world.tracked.value, j) == Lookup(w.tracked.value, j)
    ensures w.peers.Keys <= UpdateStep(p, w, k).world.peers.Keys
  {
  }

  lemma {:induction false} RunContained(p: Pass, w: World, ops: seq<Op>)
    requires w.peers == p.actual && WellKeyedRequest(p.requested)
    requires Distinct(ops) && Elements(ops) <= PassOps(p) && Contained(w)
    ensures Contained(Run(p, w, ops).world)
  {
    if ops != [] {
      var init, last := ops[..|ops| - 1], ops[|ops| - 1];
      assert ops == init + [last];
      ElementsAppend(init, last);
      RunSnoc(p, w, init, last);
      RunContained(p, w, init);
      if Run(p, w, init).Done? {
        RunEffect(p, w, init);
        StepContained(p, Run(p, w, init).world, Elements(init), last);
      }
    }
  }

  /** The peer has a batching interval and an address to ping. */
  predicate WantsTracking(p: Pass, k: PublicKey)
    requires k in p.requested
  {
    p.requested[k].batchingInterval.Some? && HasTarget(p.requested[k].peer.ipAddresses, p.ipv6)
  }

  predicate TrackedAsRequested(p: Pass, t: Option<Tracked>, k: PublicKey)
    requires k in p.requested
  {
    t.Some? && WantsTracking(p, k) ==> Lookup(t.value, k) == p.requested[k].batchingInterval
  }

  lemma StepTracks(p: Pass, w: World, op: Op, k: PublicKey)
    requires WellKeyedRequest(p.requested) && p.batching && op in PassOps(p) && k in p.requested
    requires Step(p, w, op).Done?
    ensures op.key == k ==> TrackedAsRequested(p, Step(p, w, op).world.tracked, k)
    ensures op.key != k && TrackedAsRequested(p, w.tracked, k) ==>
              TrackedAsRequested(p, Step(p, w, op).world.tracked, k)
  {
    match op
    case Delete(_) =>
    case Insert(_) =>
    case Update(_) =>
      UpdateTouchesOnly(p, w, op.key);
  }

  lemma {:induction false} RunTracks(p: Pass, w: World, ops: seq<Op>, k: PublicKey)
    requires WellKeyedRequest(p.requested) && p.batching && Elements(ops) <= PassOps(p) && k in p.requested
    requires Run(p, w, ops).Done? && (Insert(k) in ops || Update(k) in ops)
    ensures TrackedAsRequested(p, Run(p, w, ops).world.tracked, k)
  {
    var init, last := ops[..|ops| - 1], ops[|ops| - 1];
    assert ops == init + [last];
    ElementsAppend(init, last);
    RunSnoc(p, w, init, last);
    StepTracks(p, Run(p, w, init).world, last, k);
    if last.key != k {
      RunTracks(p, w, init, k);
    }
  }

  /** With batching, a completed pass leaves every peer that wants tracking tracked at exactly its interval. */
  lemma BatchingPassTracks(p: Pass, w: World, ops: seq<Op>, k: PublicKey)
    requires WellKeyedRequest(p.requested) && p.batching && ValidSchedule(p, ops)
    requires Run(p, w, ops).Done? && k in p.requested
    ensures TrackedAsRequested(p, Run(p, w, ops).world.tracked, k)
  {
    assert Insert(k) in Elements(ops) || Update(k) in Elements(ops);
    RunTracks(p, w, ops, k);
  }

  // ---- Without batching ----

  /** What a pass without batching asks of the keeper for one surviving peer: track upgrades, forget downgrades. */
  function KeeperFor(p: Pass, k: PublicKey, before: Option<nat>): Option<nat>
    requires k in p.requested && k in p.actual
  {
    var r, a := p.requested[k].peer, p.actual[k];
    if IsProxying(a, p.proxies) && !IsProxying(r, p.proxies) && HasTarget(r.ipAddresses, p.ipv6)
    then Some(r.keepalive.GetOr(p.directKeepalive))
    else if !IsProxying(a, p.proxies) && IsProxying(r, p.proxies) then None
    else before
  }

  lemma UnbatchedStep(p: Pass, w: World, op: Op, k: PublicKey)
    requires WellKeyedRequest(p.requested) && !p.batching && op in PassOps(p) && k in p.requested && k in p.actual
    requires p.requested[k].batchingInterval.None? && w.tracked.Some? && Step(p, w, op).Done?
    ensures Step(p, w, op).world.tracked.Some?
    ensures Lookup(Step(p, w, op).world.tracked.value, k) ==
            if op == Update(k) then KeeperFor(p, k, Lookup(w.tracked.value, k)) else Lookup(w.tracked.value, k)
  {
    if op.Update? {
      UpdateTouchesOnly(p, w, op.key);
    }
  }

  /** Without batching, a completed pass tracks a peer it upgrades, drops one it downgrades and leaves others alone. */
  lemma {:induction false} UnbatchedRunTracks(p: Pass, w: World, ops: seq<Op>, k: PublicKey)
    requires WellKeyedRequest(p.requested) && !p.batching && Distinct(ops) && Elements(ops) <= PassOps(p)
    requires k in p.requested && k in p.actual && p.requested[k].batchingInterval.None?
    requires w.tracked.Some? && Run(p, w, ops).Done?
    ensures Run(p, w, ops).world.tracked.Some?
    ensures Lookup(Run(p, w, ops).world.tracked.value, k) ==
            if Update(k) in ops then KeeperFor(p, k, Lookup(w.tracked.value, k)) else Lookup(w.tracked.value, k)
  {
    hide PassOps, KeeperFor, Step;
    if ops != [] {
      var init, last := ops[..|ops| - 1], ops[|ops| - 1];
      assert ops == init + [last];
      ElementsAppend(init, last);
      RunSnoc(p, w, init, last);
      UnbatchedRunTracks(p, w, init, k);
      UnbatchedStep(p, Run(p, w, init).world, last, k);
    }
  }

  // ---- Runs ----

  /**
   Ticks with anything in between that neither adds nor removes interface peers; a keeper that is stopped or
   started anew tracks nothing.
   */
  ghost predicate KeeperRun(ts: seq<Tick>) {
    && (forall i :: 0 <= i < |ts| ==> ValidTick(ts[i]))
    && (forall i :: 0 <= i < |ts| - 1 ==>
                      && ts[i + 1].before.peers.Keys == After(ts[i]).world.peers.Keys
                      && (|| ts[i + 1].before.tracked == After(ts[i]).world.tracked
                          || ts[i + 1].before.tracked == None
                          || ts[i + 1].before.tracked == Some(map[])))
  }

  /** In every run, aborted passes included, only interface peers are kept alive. */
  lemma {:induction false} KeeperStaysContained(ts: seq<Tick>, n: nat)
    requires KeeperRun(ts) && n < |ts| && Contained(ts[0].before)
    ensures Contained(ts[n].before) && Contained(After(ts[n]).world)
  {
    if n > 0 {
      KeeperStaysContained(ts, n - 1);
    }
    var t := ts[n];
    RequestWellKeyed(t.wanted, t.sensors, t.features, t.helpers, t.before.peers);
    RunContained(PassOf(t), t.before, t.ops);
  }
}
