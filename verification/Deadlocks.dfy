/**
 When a pass can fail: `add_peer` refuses a network that another peer still holds. States exactly when every order of
 the pass succeeds, when some order does, and that a request no order can carry out fails at every retry.
 */
module Deadlocks {
  import opened Basics
  import opened Peers
  import opened WireGuard
  import opened Consolidation
  import opened Convergence

  /** No network moves from a peer that stays on the interface to a peer that has to be written. */
  ghost predicate NoMovedAddress(p: Pass) {
    forall j, k :: Moves(p, j, k) ==> false
  }

  ghost predicate Moves(p: Pass, from: PublicKey, to: PublicKey) {
    && from in p.actual && from in p.requested
    && to in p.requested && to != from
    && NeedsWrite(p, to)
    && Overlap(p.requested[to].peer.allowedIps, p.actual[from].allowedIps)
  }

  ghost predicate DeletesDone(p: Pass, done: set<Op>) {
    forall k :: k in p.actual && k !in p.requested ==> Delete(k) in done
  }

  /** A write is refused exactly because of a network still held by a peer whose own write is pending. */
  lemma BlockedIff(p: Pass, w: World, done: set<Op>, k: PublicKey)
    requires Ready(p, w.(peers := p.actual)) && w.peers == PeersAfter(p, done)
    requires DeletesDone(p, done) && k in p.requested && NeedsWrite(p, k)
    ensures Blocked(w.peers, p.requested[k].peer) <==>
            exists j :: Moves(p, j, k) && Present(p, done, j) && !Written(p, done, j)
  {
    var r := p.requested[k].peer;
    if Blocked(w.peers, r) {
      var j :| j in w.peers && w.peers[j].publicKey != k && Overlap(r.allowedIps, w.peers[j].allowedIps);
      if Written(p, done, j) {
        assert false;
      }
      assert j in p.requested;
      assert Moves(p, j, k) && Present(p, done, j);
    }
    if j :| Moves(p, j, k) && Present(p, done, j) && !Written(p, done, j) {
      assert w.peers[j] == p.actual[j];
    }
  }

  /** In a schedule, all deletions come before the first insertion or update. */
  lemma DeletesFirst(p: Pass, ops: seq<Op>, n: nat)
    requires ValidSchedule(p, ops) && n < |ops| && !ops[n].Delete?
    ensures DeletesDone(p, Elements(ops[..n]))
  {
    forall k | k in p.actual && k !in p.requested
      ensures Delete(k) in Elements(ops[..n])
    {
      assert Delete(k) in Elements(ops);
      var i :| 0 <= i < |ops| && ops[i] == Delete(k);
      assert i < n;
      assert ops[..n][i] == Delete(k);
    }
  }

  /** The operation a failed pass stopped at, with the interface described by the operations before it. */
  lemma FailureCause(p: Pass, w: World, ops: seq<Op>) returns (n: nat, j: PublicKey)
    requires Ready(p, w) && ValidSchedule(p, ops)
    requires Run(p, w, ops).Failed?
    ensures n < |ops| && !ops[n].Delete?
    ensures Elements(ops[..n]) <= PassOps(p) && Run(p, w, ops[..n]).Done?
    ensures Run(p, w, ops).world.peers == PeersAfter(p, Elements(ops[..n]))
    ensures Moves(p, j, ops[n].key)
    ensures Present(p, Elements(ops[..n]), j) && !Written(p, Elements(ops[..n]), j)
  {
    n := FailurePoint(p, w, ops);
    PrefixOf(ops, n, PassOps(p));
    RunEffect(p, w, ops[..n]);
    DeletesFirst(p, ops, n);
    var mid := Run(p, w, ops).world;
    BlockedIff(p, mid, Elements(ops[..n]), ops[n].key);
    j :| Moves(p, j, ops[n].key) && Present(p, Elements(ops[..n]), j) && !Written(p, Elements(ops[..n]), j);
  }

  lemma PrefixDone(p: Pass, w: World, ops: seq<Op>, n: nat)
    requires Elements(ops) <= PassOps(p) && n <= |ops| && Run(p, w, ops).Done?
    ensures Elements(ops[..n]) <= PassOps(p) && Run(p, w, ops[..n]).Done?
  {
    assert ops == ops[..n] + ops[n..];
    ElementsConcat(ops[..n], ops[n..]);
    if Run(p, w, ops[..n]).Failed? {
      RunStaysFailed(p, w, ops[..n], ops[n..]);
    }
  }

  /** Inside a stretch that succeeded, every operation was reached and succeeded. */
  lemma StepReached(p: Pass, w: World, ops: seq<Op>, m: nat, n: nat)
    requires n < m <= |ops| && Elements(ops[..m]) <= PassOps(p) && Run(p, w, ops[..m]).Done?
    ensures Elements(ops[..n]) <= PassOps(p) && ops[n] in PassOps(p)
    ensures Run(p, w, ops[..n]).Done? && Step(p, Run(p, w, ops[..n]).world, ops[n]).Done?
  {
    assert ops[..m][..n] == ops[..n] && ops[..m][..n + 1] == ops[..n] + [ops[n]];
    assert ops[..m][n] in Elements(ops[..m]);
    PrefixDone(p, w, ops[..m], n);
    PrefixDone(p, w, ops[..m], n + 1);
    RunSnoc(p, w, ops[..n], ops[n]);
  }

  lemma NotBlocked(p: Pass, w: World, op: Op)
    requires op in PassOps(p) && !op.Delete? && NeedsWrite(p, op.key) && Step(p, w, op).Done?
    ensures !Blocked(w.peers, p.requested[op.key].peer)
  {
  }

  /** A peer is only ever written after every surviving holder of its networks has been updated. */
  lemma ReleasedBefore(p: Pass, w: World, ops: seq<Op>, m: nat, n: nat, j: PublicKey)
    requires Ready(p, w) && ValidSchedule(p, ops)
    requires n < m <= |ops| && Elements(ops[..m]) <= PassOps(p) && Run(p, w, ops[..m]).Done?
    requires !ops[n].Delete? && Moves(p, j, ops[n].key)
    ensures Update(j) in ops[..n]
  {
    var done, mid := Elements(ops[..n]), Run(p, w, ops[..n]).world;
    StepReached(p, w, ops, m, n);
    PrefixOf(ops, n, PassOps(p));
    RunEffect(p, w, ops[..n]);
    DeletesFirst(p, ops, n);
    NotBlocked(p, mid, ops[n]);
    BlockedIff(p, mid, done, ops[n].key);
    SurvivorPresent(p, done, j);
    assert Written(p, done, j);
  }

  /** A schedule that updates `k` before any other surviving peer. */
  lemma ScheduleUpdatingFirst(p: Pass, k: PublicKey) returns (ops: seq<Op>, n: nat)
    requires k in p.actual && k in p.requested
    ensures ValidSchedule(p, ops)
    ensures n < |ops| && ops[n] == Update(k)
    ensures forall i :: 0 <= i < n ==> !ops[i].Update?
  {
    var others := p.requested.Keys * p.actual.Keys - {k};
    var rest := Enumeration(others);
    assert Enumerates([k], {k});
    EnumeratesConcat([k], {k}, rest, others);
    assert {k} + others == p.requested.Keys * p.actual.Keys;
    ops, n := ScheduleFor(p, [k] + rest);
    assert ops[n + 0] == Update(([k] + rest)[0]);
  }

  lemma UpdatesAfterInserts(p: Pass, ops: seq<Op>, n: nat, j: PublicKey)
    requires ValidSchedule(p, ops) && n < |ops| && ops[n].Insert?
    ensures Update(j) !in ops[..n]
  {
    forall i | 0 <= i < n
      ensures ops[..n][i] != Update(j)
    {
      assert Phase(ops[i]) <= Phase(ops[n]);
    }
  }

  // ---- Passes that no order can carry out ----

  /** `k` has to be written, and some holder of its networks cannot be updated before it. */
  ghost predicate Waits(p: Pass, keys: set<PublicKey>, k: PublicKey) {
    exists j :: Moves(p, j, k) && (k in p.actual ==> j in keys)
  }

  /** Peers waiting for each other: a surviving one for another of them, a new one for any surviving peer. */
  ghost predicate Stuck(p: Pass, keys: set<PublicKey>) {
    keys != {} && forall k :: k in keys ==> Waits(p, keys, k)
  }

  /** None of the waiting peers is written in a stretch of the pass that succeeded. */
  lemma {:induction false} StuckNeverReached(p: Pass, w: World, ops: seq<Op>, m: nat, keys: set<PublicKey>)
    requires Ready(p, w) && ValidSchedule(p, ops) && Stuck(p, keys)
    requires m <= |ops| && Elements(ops[..m]) <= PassOps(p) && Run(p, w, ops[..m]).Done?
    ensures forall k :: k in keys ==> Update(k) !in ops[..m] && Insert(k) !in ops[..m]
    decreases m
  {
    hide Ready, ValidSchedule, Waits, PassOps, Step;
    if m > 0 {
      var last := ops[m - 1];
      assert ops[..m][..m - 1] == ops[..m - 1];
      assert ops[..m] == ops[..m - 1] + [last];
      PrefixDone(p, w, ops[..m], m - 1);
      StuckNeverReached(p, w, ops, m - 1, keys);
      if last.key in keys && !last.Delete? {
        var j := WaitedFor(p, w, ops, m - 1, keys);
      }
    }
  }

  /** A waiting peer that was written has one of its own kind written before it. */
  lemma WaitedFor(p: Pass, w: World, ops: seq<Op>, n: nat, keys: set<PublicKey>) returns (j: PublicKey)
    requires Ready(p, w) && ValidSchedule(p, ops) && n < |ops| && !ops[n].Delete? && Waits(p, keys, ops[n].key)
    requires Elements(ops[..n + 1]) <= PassOps(p) && Run(p, w, ops[..n + 1]).Done?
    ensures j in keys && Update(j) in ops[..n]
  {
    hide Run, Ready, Moves;
    j :| Moves(p, j, ops[n].key) && (ops[n].key in p.actual ==> j in keys);
    ReleasedBefore(p, w, ops, n + 1, n, j);
    if ops[n].Insert? {
      UpdatesAfterInserts(p, ops, n, j);
    } else {
      assert ops[..n + 1][n] in Elements(ops[..n + 1]);
    }
  }

  /** Under every order the pass fails, with the waiting peers and all they wait for exactly as before. */
  lemma StuckFails(p: Pass, w: World, ops: seq<Op>, keys: set<PublicKey>)
    requires Ready(p, w) && ValidSchedule(p, ops) && Stuck(p, keys)
    ensures Run(p, w, ops).Failed?
    ensures forall k :: k in keys ==> Lookup(Run(p, w, ops).world.peers, k) == Lookup(p.actual, k)
    ensures forall k, j :: k in keys && Moves(p, j, k) && (k in p.actual ==> j in keys) ==>
                             Lookup(Run(p, w, ops).world.peers, j) == Lookup(p.actual, j)
  {
    hide Run, PeersAfter, Overlap, Ready, Moves;
    assert ops[..|ops|] == ops;
    if Run(p, w, ops).Done? {
      var k :| k in keys && Waits(p, keys, k);
      WaitingHasOp(p, ops, keys, k);
      StuckNeverReached(p, w, ops, |ops|, keys);
    } else {
      var m, _ := FailureCause(p, w, ops);
      StuckNeverReached(p, w, ops, m, keys);
      StuckUntouched(p, ops, m, keys);
    }
  }

  lemma WaitingHasOp(p: Pass, ops: seq<Op>, keys: set<PublicKey>, k: PublicKey)
    requires ValidSchedule(p, ops) && Waits(p, keys, k)
    ensures Update(k) in ops || Insert(k) in ops
  {
    assert (if k in p.actual then Update(k) else Insert(k)) in Elements(ops);
  }

  lemma StuckUntouched(p: Pass, ops: seq<Op>, m: nat, keys: set<PublicKey>)
    requires ValidSchedule(p, ops) && m < |ops| && Stuck(p, keys)
    requires forall k :: k in keys ==> Update(k) !in ops[..m] && Insert(k) !in ops[..m]
    ensures var ifc := PeersAfter(p, Elements(ops[..m]));
            && (forall k :: k in keys ==> Lookup(ifc, k) == Lookup(p.actual, k))
            && (forall k, j :: k in keys && Moves(p, j, k) && (k in p.actual ==> j in keys) ==>
                                 Lookup(ifc, j) == Lookup(p.actual, j))
  {
    hide PeersAfter, ValidSchedule, Overlap;
    forall k | k in keys
      ensures Lookup(PeersAfter(p, Elements(ops[..m])), k) == Lookup(p.actual, k)
    {
      assert Waits(p, keys, k);
      WaitingUntouched(p, ops, m, k);
    }
    forall k, j | k in keys && Moves(p, j, k) && (k in p.actual ==> j in keys)
      ensures Lookup(PeersAfter(p, Elements(ops[..m])), j) == Lookup(p.actual, j)
    {
      if k !in p.actual {
        KeepsOld(p, ops, m, j, k);
      }
    }
  }

  lemma WaitingUntouched(p: Pass, ops: seq<Op>, m: nat, k: PublicKey)
    requires ValidSchedule(p, ops) && m < |ops| && k in p.requested
    requires Update(k) !in ops[..m] && Insert(k) !in ops[..m]
    ensures Lookup(PeersAfter(p, Elements(ops[..m])), k) == Lookup(p.actual, k)
  {
    PrefixOf(ops, m, PassOps(p));
    if k in p.actual {
      SurvivorPresent(p, Elements(ops[..m]), k);
    }
  }

  /** Up to index `m`, before the new peer `to` is inserted, no surviving peer can have been updated. */
  lemma KeepsOld(p: Pass, ops: seq<Op>, m: nat, from: PublicKey, to: PublicKey)
    requires ValidSchedule(p, ops) && m < |ops| && to in p.requested && to !in p.actual
    requires from in p.actual && from in p.requested
    requires Insert(to) !in ops[..m]
    ensures Lookup(PeersAfter(p, Elements(ops[..m])), from) == Lookup(p.actual, from)
  {
    assert Insert(to) in Elements(ops);
    var n :| 0 <= n < |ops| && ops[n] == Insert(to);
    assert m <= n by {
      assert forall i :: 0 <= i < m ==> ops[..m][i] == ops[i];
    }
    UpdatesAfterInserts(p, ops, n, from);
    assert forall x :: x in ops[..m] ==> x in ops[..n];
    assert Insert(from) !in ops[..m] by {
      PrefixOf(ops, m, PassOps(p));
      SurvivorPresent(p, Elements(ops[..m]), from);
    }
    WaitingUntouched(p, ops, m, from);
  }

  // ---- When some order succeeds ----

  /** An order of updates in which every peer comes after all those holding its networks; new peers need no holder. */
  ghost predicate HandoverOrder(p: Pass, order: seq<PublicKey>) {
    && Enumerates(order, p.requested.Keys * p.actual.Keys)
    && (forall j, k :: Moves(p, j, k) ==> k in p.actual)
    && (forall a, b :: 0 <= a <= b < |order| ==> !Moves(p, order[b], order[a]))
  }

  ghost function Updates(p: Pass): set<Op> {
    set op | op in PassOps(p) && op.Update?
  }

  lemma UpdatesInOrder(p: Pass, order: seq<PublicKey>) returns (ops: seq<Op>)
    requires Enumerates(order, p.requested.Keys * p.actual.Keys)
    ensures Enumerates(ops, Updates(p)) && |ops| == |order|
    ensures forall i :: 0 <= i < |order| ==> ops[i] == Update(order[i])
  {
    ops := seq(|order|, i requires 0 <= i < |order| => Update(order[i]));
    forall i | 0 <= i < |ops|
      ensures ops[i] in Updates(p)
    {
      assert order[i] in Elements(order);
    }
    forall op | op in Updates(p)
      ensures op in Elements(ops)
    {
      assert op.key in Elements(order);
      var i :| 0 <= i < |order| && order[i] == op.key;
      assert ops[i] == op;
    }
  }

  /** The schedule that updates the surviving peers in the given order. */
  lemma ScheduleFor(p: Pass, order: seq<PublicKey>) returns (ops: seq<Op>, first: nat)
    requires Enumerates(order, p.requested.Keys * p.actual.Keys)
    ensures ValidSchedule(p, ops)
    ensures first + |order| == |ops| && forall i :: 0 <= i < |order| ==> ops[first + i] == Update(order[i])
    ensures forall i :: 0 <= i < first ==> !ops[i].Update?
  {
    hide PassOps;
    var early := PassOps(p) - Updates(p);
    var before := PhasedEnumeration(early);
    var after := UpdatesInOrder(p, order);
    EnumeratesConcat(before, early, after, Updates(p));
    assert early + Updates(p) == PassOps(p);
    PhasedConcat(before, after, 2);
    assert forall i :: 0 <= i < |before| ==> before[i] in Elements(before);
    ops, first := before + after, |before|;
  }

  lemma HandoverSucceeds(p: Pass, w: World, order: seq<PublicKey>) returns (ops: seq<Op>)
    requires Ready(p, w) && HandoverOrder(p, order)
    ensures ValidSchedule(p, ops) && Run(p, w, ops).Done?
  {
    hide Run;
    var first;
    ops, first := ScheduleFor(p, order);
    if Run(p, w, ops).Failed? {
      var n, j := FailureCause(p, w, ops);
      PrefixOf(ops, n, PassOps(p));
      HolderUpdated(p, order, ops, first, n, j);
      KeptNetworksStay(p, j, ops[n].key);
    }
  }

  /** In a handover order, every surviving holder of a peer's networks is updated before that peer. */
  lemma HolderUpdated(p: Pass, order: seq<PublicKey>, ops: seq<Op>, first: nat, n: nat, j: PublicKey)
    requires HandoverOrder(p, order) && n < |ops| && ops[n] in PassOps(p) && !ops[n].Delete? && Moves(p, j, ops[n].key)
    requires first + |order| == |ops| && forall i :: 0 <= i < |order| ==> ops[first + i] == Update(order[i])
    requires forall i :: 0 <= i < first ==> !ops[i].Update?
    ensures Update(j) in ops[..n]
  {
    assert ops[n].Update? && first <= n;
    assert j in Elements(order);
    var b :| 0 <= b < |order| && order[b] == j;
    assert ops[first + (n - first)] == Update(order[n - first]);
    assert b < n - first;
    assert ops[..n][first + b] == Update(j);
  }

  /** A holder whose networks move away has to be written itself. */
  lemma KeptNetworksStay(p: Pass, j: PublicKey, k: PublicKey)
    requires DisjointRoutes(p.requested) && Moves(p, j, k)
    ensures NeedsWrite(p, j)
  {
    OverlapSymmetric(p.requested[k].peer.allowedIps, p.requested[j].peer.allowedIps);
  }

  /** Take peers off one by one that wait for none of the others; if that gets stuck, the rest is stuck for good. */
  lemma FindOrder(p: Pass) returns (order: seq<PublicKey>, keys: set<PublicKey>)
    ensures HandoverOrder(p, order) || Stuck(p, keys)
  {
    hide Moves;
    order, keys := [], {};
    if j, k :| Moves(p, j, k) && k !in p.actual {
      keys := {k};
      assert Waits(p, keys, k);
      return;
    }
    keys := p.requested.Keys * p.actual.Keys;
    while keys != {}
      invariant keys <= p.requested.Keys * p.actual.Keys
      invariant Enumerates(order, p.requested.Keys * p.actual.Keys - keys)
      invariant forall a, b :: 0 <= a <= b < |order| ==> !Moves(p, order[b], order[a])
      invariant forall a, j :: 0 <= a < |order| && j in keys ==> !Moves(p, j, order[a])
      decreases keys
    {
      if forall k :: k in keys ==> Waits(p, keys, k) {
        return;
      }
      var k :| k in keys && !Waits(p, keys, k);
      ElementsAppend(order, k);
      order, keys := order + [k], keys - {k};
    }
  }

  /** Some order of the pass succeeds exactly when the peers can be ordered so that each network is free when needed. */
  lemma SomeOrderSucceedsIff(p: Pass, w: World)
    requires Ready(p, w)
    ensures (exists ops :: ValidSchedule(p, ops) && Run(p, w, ops).Done?) <==> exists order :: HandoverOrder(p, order)
    ensures (exists order :: HandoverOrder(p, order)) <==> forall keys :: !Stuck(p, keys)
  {
    hide Run, PassOps, HandoverOrder, Stuck;
    if order :| HandoverOrder(p, order) {
      var ops := HandoverSucceeds(p, w, order);
    }
    if ops :| ValidSchedule(p, ops) && Run(p, w, ops).Done? {
      forall keys
        ensures !Stuck(p, keys)
      {
        if Stuck(p, keys) {
          StuckFails(p, w, ops, keys);
        }
      }
    }
    var order, keys := FindOrder(p);
  }

  // ---- The same in terms of who routes what ----

  /** `from` stays on the interface and holds a network requested for `to`. */
  ghost predicate Holds(ifc: Interface, req: Request, from: PublicKey, to: PublicKey) {
    && from in ifc && from in req && to in req && to != from
    && Overlap(req[to].peer.allowedIps, ifc[from].allowedIps)
  }

  ghost predicate Blockaded(ifc: Interface, req: Request, keys: set<PublicKey>, k: PublicKey) {
    && (k in ifc && k in req ==> req[k].peer.allowedIps != ifc[k].allowedIps)
    && exists j :: Holds(ifc, req, j, k) && (k in ifc ==> j in keys)
  }

  /**
   Peers whose networks no order can ever hand over: new ones wait for a surviving holder, as insertions run before
   updates; surviving ones wait for each other.
   */
  ghost predicate Deadlocked(ifc: Interface, req: Request, keys: set<PublicKey>) {
    keys != {} && forall k :: k in keys ==> Blockaded(ifc, req, keys, k)
  }

  lemma DeadlockIsStuck(p: Pass, keys: set<PublicKey>)
    requires Deadlocked(p.actual, p.requested, keys)
    ensures Stuck(p, keys)
  {
    forall k | k in keys
      ensures Waits(p, keys, k)
    {
      assert Blockaded(p.actual, p.requested, keys, k);
      var j :| Holds(p.actual, p.requested, j, k) && (k in p.actual ==> j in keys);
      assert Moves(p, j, k);
    }
  }

  lemma StuckIsDeadlock(p: Pass, keys: set<PublicKey>)
    requires DisjointInterface(p.actual) && Stuck(p, keys)
    ensures Deadlocked(p.actual, p.requested, keys)
  {
    hide Waits, Blockaded, DisjointInterface;
    forall k | k in keys
      ensures Blockaded(p.actual, p.requested, keys, k)
    {
      WaitsBlockaded(p, keys, k);
    }
  }

  lemma WaitsBlockaded(p: Pass, keys: set<PublicKey>, k: PublicKey)
    requires DisjointInterface(p.actual) && Waits(p, keys, k)
    ensures Blockaded(p.actual, p.requested, keys, k)
  {
    hide Overlap, DisjointInterface, NeedsWrite;
    var j :| Moves(p, j, k) && (k in p.actual ==> j in keys);
    assert Holds(p.actual, p.requested, j, k);
    if k in p.actual {
      OneHolder(p.actual, k, j);
    }
  }

  lemma OneHolder(ifc: Interface, j: PublicKey, k: PublicKey)
    requires DisjointInterface(ifc) && j in ifc && k in ifc && j != k
    ensures !Overlap(ifc[j].allowedIps, ifc[k].allowedIps)
  {
  }

  function NextIndex<T>(c: seq<T>, i: nat): nat {
    if i + 1 == |c| then 0 else i + 1
  }

  /** Surviving peers passing networks around in a circle, each holding one requested for the next. */
  ghost predicate Rotation(ifc: Interface, req: Request, c: seq<PublicKey>) {
    c != [] && forall i :: 0 <= i < |c| ==> RotatesAt(ifc, req, c, i)
  }

  ghost predicate RotatesAt(ifc: Interface, req: Request, c: seq<PublicKey>, i: nat)
    requires i < |c|
  {
    Holds(ifc, req, c[i], c[NextIndex(c, i)])
  }

  lemma RotationDeadlocks(ifc: Interface, req: Request, c: seq<PublicKey>)
    requires DisjointRoutes(req) && Rotation(ifc, req, c)
    ensures Deadlocked(ifc, req, Elements(c))
  {
    assert c[0] in Elements(c);
    forall k | k in Elements(c)
      ensures Blockaded(ifc, req, Elements(c), k)
    {
      var i :| 0 <= i < |c| && c[i] == k;
      var before := if i == 0 then |c| - 1 else i - 1;
      assert RotatesAt(ifc, req, c, i) && RotatesAt(ifc, req, c, before);
      assert NextIndex(c, before) == i && c[before] in Elements(c);
      var next := c[NextIndex(c, i)];
      OverlapSymmetric(req[next].peer.allowedIps, req[k].peer.allowedIps);
    }
  }

  lemma AnyKey(ifc: Interface, req: Request, keys: set<PublicKey>) returns (k: PublicKey)
    requires Deadlocked(ifc, req, keys)
    ensures k in keys
  {
    k :| k in keys;
  }

  lemma HolderAmong(ifc: Interface, req: Request, keys: set<PublicKey>, k: PublicKey) returns (j: PublicKey)
    requires Deadlocked(ifc, req, keys) && k in keys && k in ifc
    ensures j in keys && Holds(ifc, req, j, k)
  {
    assert Blockaded(ifc, req, keys, k);
    j :| Holds(ifc, req, j, k) && j in keys;
  }

  /** Walking back from holder to holder among surviving peers must come round. */
  lemma DeadlockHasRotation(ifc: Interface, req: Request, keys: set<PublicKey>) returns (c: seq<PublicKey>)
    requires Deadlocked(ifc, req, keys) && keys <= ifc.Keys
    ensures Rotation(ifc, req, c)
  {
    hide Holds, Deadlocked;
    var k := AnyKey(ifc, req, keys);
    var walk, ahead := [k], keys - {k};
    while true
      invariant walk != [] && Elements(walk) <= keys && ahead == keys - Elements(walk)
      invariant forall i :: 0 <= i < |walk| - 1 ==> Holds(ifc, req, walk[i], walk[i + 1])
      decreases ahead
    {
      assert walk[0] in Elements(walk);
      var j := HolderAmong(ifc, req, keys, walk[0]);
      if j in walk {
        var i :| 0 <= i < |walk| && walk[i] == j;
        c := walk[..i + 1];
        assert forall n :: 0 <= n < |c| ==> RotatesAt(ifc, req, c, n);
        return;
      }
      ElementsConcat([j], walk);
      assert Elements([j]) == {j};
      assert j in ahead;
      walk, ahead := [j] + walk, ahead - {j};
    }
  }

  /**
   On an interface routing no network twice, no order of the pass succeeds exactly when some new peer is to take a
   network of a surviving one, or surviving peers are to pass networks around in a circle of any length.
   */
  lemma NoOrderSucceedsIff(p: Pass, w: World)
    requires Ready(p, w) && DisjointInterface(p.actual)
    ensures (forall ops :: ValidSchedule(p, ops) ==> Run(p, w, ops).Failed?) <==>
            || (exists j, k :: Holds(p.actual, p.requested, j, k) && k !in p.actual)
            || (exists c :: Rotation(p.actual, p.requested, c))
  {
    hide Run, PassOps, Rotation, Holds, Ready, Stuck;
    SomeOrderSucceedsIff(p, w);
    StuckIff(p, w);
    assert forall ops :: ValidSchedule(p, ops) ==> (Run(p, w, ops).Failed? <==> !Run(p, w, ops).Done?);
  }

  lemma StuckIff(p: Pass, w: World)
    requires Ready(p, w) && DisjointInterface(p.actual)
    ensures (exists keys :: Stuck(p, keys)) <==>
            || (exists j, k :: Holds(p.actual, p.requested, j, k) && k !in p.actual)
            || (exists c :: Rotation(p.actual, p.requested, c))
  {
    hide Rotation, Holds, Stuck, Deadlocked;
    var ifc, req := p.actual, p.requested;
    if keys :| Stuck(p, keys) {
      StuckIsDeadlock(p, keys);
      DeadlockCause(ifc, req, keys);
    }
    if c :| Rotation(ifc, req, c) {
      RotationDeadlocks(ifc, req, c);
      DeadlockIsStuck(p, Elements(c));
    }
    if j, k :| Holds(ifc, req, j, k) && k !in ifc {
      InsertionDeadlocks(ifc, req, j, k);
      DeadlockIsStuck(p, {k});
    }
  }

  lemma InsertionDeadlocks(ifc: Interface, req: Request, j: PublicKey, k: PublicKey)
    requires Holds(ifc, req, j, k) && k !in ifc
    ensures Deadlocked(ifc, req, {k})
  {
    assert Blockaded(ifc, req, {k}, k);
  }

  lemma DeadlockCause(ifc: Interface, req: Request, keys: set<PublicKey>)
    requires Deadlocked(ifc, req, keys)
    ensures || (exists j, k :: Holds(ifc, req, j, k) && k !in ifc)
            || (exists c :: Rotation(ifc, req, c))
  {
    hide Rotation, Holds;
    if keys <= ifc.Keys {
      var c := DeadlockHasRotation(ifc, req, keys);
    } else {
      var k :| k in keys && k !in ifc;
      assert Blockaded(ifc, req, keys, k);
    }
  }


  /** Every order of the pass succeeds exactly when no network moves to a written peer from a surviving one. */
  lemma EveryOrderSucceedsIff(p: Pass, w: World)
    requires Ready(p, w)
    ensures (forall ops :: ValidSchedule(p, ops) ==> Run(p, w, ops).Done?) <==> NoMovedAddress(p)
  {
    if NoMovedAddress(p) {
      forall ops | ValidSchedule(p, ops)
        ensures Run(p, w, ops).Done?
      {
        if Run(p, w, ops).Failed? {
          var n, j := FailureCause(p, w, ops);
        }
      }
    } else {
      var j, k :| Moves(p, j, k);
      var ops := FailingSchedule(p, w, j, k);
    }
  }

  lemma FailingSchedule(p: Pass, w: World, j: PublicKey, k: PublicKey) returns (ops: seq<Op>)
    requires Ready(p, w) && Moves(p, j, k)
    ensures ValidSchedule(p, ops) && Run(p, w, ops).Failed?
  {
    if k !in p.actual {
      ops := PhasedEnumeration(PassOps(p));
      assert Waits(p, {k}, k);
      StuckFails(p, w, ops, {k});
    } else {
      var n;
      ops, n := ScheduleUpdatingFirst(p, k);
      assert ops[..|ops|] == ops;
      assert forall i :: 0 <= i < n ==> ops[..n][i] != Update(j);
      if Run(p, w, ops).Done? {
        ReleasedBefore(p, w, ops, |ops|, n, j);
      }
    }
  }

  // ---- Runs of passes ----

  /** The environment may change anything about the peers between passes except who routes what. */
  ghost predicate SameRoutes(a: Interface, b: Interface) {
    a.Keys == b.Keys && forall k :: k in a ==> a[k].allowedIps == b[k].allowedIps
  }

  ghost predicate SameRequestedRoutes(a: Request, b: Request) {
    a.Keys == b.Keys && forall k :: k in a ==> a[k].peer.allowedIps == b[k].peer.allowedIps
  }

  lemma SameRoutesDeadlock(ifc: Interface, ifc': Interface, req: Request, req': Request, keys: set<PublicKey>)
    requires Deadlocked(ifc, req, keys) && SameRoutes(ifc, ifc') && SameRequestedRoutes(req, req')
    ensures Deadlocked(ifc', req', keys)
  {
    forall k | k in keys
      ensures Blockaded(ifc', req', keys, k)
    {
      assert Blockaded(ifc, req, keys, k);
      var j :| Holds(ifc, req, j, k) && (k in ifc ==> j in keys);
      assert Holds(ifc', req', j, k);
    }
  }

  /** A deadlocked pass fails under every order, and the deadlock is still there afterwards. */
  lemma DeadlockedPassFails(p: Pass, w: World, ops: seq<Op>, keys: set<PublicKey>)
    requires Ready(p, w) && ValidSchedule(p, ops)
    requires Deadlocked(p.actual, p.requested, keys)
    ensures Run(p, w, ops).Failed?
    ensures Deadlocked(Run(p, w, ops).world.peers, p.requested, keys)
  {
    hide Run, PassOps, Blockaded, Moves;
    DeadlockIsStuck(p, keys);
    StuckFails(p, w, ops, keys);
    forall k | k in keys
      ensures Blockaded(Run(p, w, ops).world.peers, p.requested, keys, k)
    {
      StaysBlockaded(p, Run(p, w, ops).world.peers, keys, k);
    }
  }

  lemma StaysBlockaded(p: Pass, ifc: Interface, keys: set<PublicKey>, k: PublicKey)
    requires k in keys && Blockaded(p.actual, p.requested, keys, k) && Lookup(ifc, k) == Lookup(p.actual, k)
    requires forall j :: Moves(p, j, k) && (k in p.actual ==> j in keys) ==> Lookup(ifc, j) == Lookup(p.actual, j)
    ensures Blockaded(ifc, p.requested, keys, k)
  {
    var j :| Holds(p.actual, p.requested, j, k) && (k in p.actual ==> j in keys);
    assert Moves(p, j, k);
    assert Lookup(ifc, j) == Lookup(p.actual, j);
    assert Holds(ifc, p.requested, j, k);
  }

  /** Consecutive passes for one set of requested routes, each in its own order. */
  ghost predicate PassSequence(req: Request, ps: seq<Pass>, ws: seq<World>, orders: seq<seq<Op>>) {
    && |ps| == |ws| == |orders|
    && (forall i :: 0 <= i < |ps| ==>
                      && Ready(ps[i], ws[i])
                      && SameRequestedRoutes(req, ps[i].requested)
                      && ValidSchedule(ps[i], orders[i]))
    && (forall i :: 0 <= i < |ps| - 1 ==> SameRoutes(Run(ps[i], ws[i], orders[i]).world.peers, ws[i + 1].peers))
  }

  /** Repeating a deadlocked request never succeeds, however often and in whatever orders it is tried. */
  lemma {:induction false} DeadlockIsPermanent(
      req: Request, ps: seq<Pass>, ws: seq<World>, orders: seq<seq<Op>>, keys: set<PublicKey>, n: nat)
    requires PassSequence(req, ps, ws, orders) && n < |ps|
    requires Deadlocked(ws[0].peers, req, keys)
    ensures Deadlocked(ws[n].peers, req, keys)
    ensures Run(ps[n], ws[n], orders[n]).Failed?
    decreases n
  {
    hide Run, PassOps, Deadlocked, SameRoutes, SameRequestedRoutes;
    if n > 0 {
      DeadlockIsPermanent(req, ps, ws, orders, keys, n - 1);
      DeadlockedRetry(req, ps[n - 1], ws[n - 1], orders[n - 1], keys);
      SameRoutesRefl(req);
      SameRoutesDeadlock(Run(ps[n - 1], ws[n - 1], orders[n - 1]).world.peers, ws[n].peers, req, req, keys);
    }
    DeadlockedRetry(req, ps[n], ws[n], orders[n], keys);
  }

  lemma SameRoutesRefl(req: Request)
    ensures SameRequestedRoutes(req, req)
  {
  }

  lemma DeadlockedRetry(req: Request, p: Pass, w: World, ops: seq<Op>, keys: set<PublicKey>)
    requires Ready(p, w) && ValidSchedule(p, ops) && SameRequestedRoutes(req, p.requested)
    requires Deadlocked(w.peers, req, keys)
    ensures Run(p, w, ops).Failed?
    ensures Deadlocked(Run(p, w, ops).world.peers, req, keys)
  {
    hide Run, PassOps, Deadlocked;
    SameRoutesDeadlock(w.peers, w.peers, req, p.requested, keys);
    DeadlockedPassFails(p, w, ops, keys);
    SameRoutesDeadlock(Run(p, w, ops).world.peers, Run(p, w, ops).world.peers, p.requested, req, keys);
  }

  /** On an interface routing no network twice, a pass that fails in every order fails at every retry as well. */
  lemma FailsForever(p: Pass, w: World, ps: seq<Pass>, ws: seq<World>, orders: seq<seq<Op>>, n: nat)
    requires Ready(p, w) && DisjointInterface(p.actual)
    requires PassSequence(p.requested, ps, ws, orders) && n < |ps| && ws[0].peers == p.actual
    requires forall ops :: ValidSchedule(p, ops) ==> Run(p, w, ops).Failed?
    ensures Run(ps[n], ws[n], orders[n]).Failed?
  {
    hide Run, PassSequence;
    SomeOrderSucceedsIff(p, w);
    var keys :| Stuck(p, keys);
    StuckIsDeadlock(p, keys);
    DeadlockIsPermanent(p.requested, ps, ws, orders, keys, n);
  }

  // ---- Three peers passing their networks on ----

  function SamplePeer(k: PublicKey, n: nat): Peer {
    Peer(k, None, None, [], Some(0), [IpNet(V4(n), 32)], None, None)
  }

  function RotatingPass(): Pass {
    Pass(map[1 := SamplePeer(1, 1), 2 := SamplePeer(2, 2), 3 := SamplePeer(3, 3)],
         map[1 := RequestedPeer(SamplePeer(1, 3), None, None), 2 := RequestedPeer(SamplePeer(2, 1), None, None),
             3 := RequestedPeer(SamplePeer(3, 2), None, None)],
         0, map[], false, false, false, 0)
  }

  lemma SampleNets(k: PublicKey, n: nat, m: nat)
    ensures Overlap(SamplePeer(k, n).allowedIps, SamplePeer(k, m).allowedIps) <==> n == m
    ensures forall j :: SamplePeer(j, n).allowedIps == SamplePeer(k, n).allowedIps
  {
    assert SamplePeer(k, n).allowedIps[0].addr.v4 == n && SamplePeer(k, m).allowedIps[0].addr.v4 == m;
  }

  lemma SampleHolds(j: PublicKey, k: PublicKey)
    requires j in {1, 2, 3} && k in {1, 2, 3} && j != k
    ensures Holds(RotatingPass().actual, RotatingPass().requested, j, k) <==> (j, k) in {(1, 2), (2, 3), (3, 1)}
    ensures !Overlap(RotatingPass().requested[j].peer.allowedIps, RotatingPass().requested[k].peer.allowedIps)
  {
    hide SamplePeer, Overlap;
    forall n, m
      ensures Overlap(SamplePeer(k, n).allowedIps, SamplePeer(j, m).allowedIps) <==> n == m
      ensures Overlap(SamplePeer(j, n).allowedIps, SamplePeer(k, m).allowedIps) <==> n == m
    {
      SampleNets(k, n, m);
      SampleNets(j, n, m);
    }
  }

  /** No two of the peers swap networks, yet no order succeeds. */
  lemma ThreePeersRotate(w: World, ops: seq<Op>)
    requires w.peers == RotatingPass().actual && ValidSchedule(RotatingPass(), ops)
    ensures Run(RotatingPass(), w, ops).Failed?
    ensures var req := RotatingPass().requested;
            forall j, k :: Holds(w.peers, req, j, k) ==> !Holds(w.peers, req, k, j)
  {
    hide Run, PassOps, SamplePeer, Overlap, DisjointRoutes;
    var p := RotatingPass();
    SampleReady(w);
    forall j, k | Holds(p.actual, p.requested, j, k)
      ensures !Holds(p.actual, p.requested, k, j)
    {
      SampleHolds(j, k);
      SampleHolds(k, j);
    }
    SampleHolds(1, 2);
    SampleHolds(2, 3);
    SampleHolds(3, 1);
    var c := [1, 2, 3];
    assert RotatesAt(p.actual, p.requested, c, 0) && RotatesAt(p.actual, p.requested, c, 1)
           && RotatesAt(p.actual, p.requested, c, 2);
    RotationDeadlocks(p.actual, p.requested, c);
    DeadlockedPassFails(p, w, ops, Elements(c));
  }

  lemma SampleReady(w: World)
    requires w.peers == RotatingPass().actual
    ensures Ready(RotatingPass(), w)
  {
    hide Overlap;
    var req := RotatingPass().requested;
    forall j, k | j in req && k in req && j != k
      ensures !Overlap(req[j].peer.allowedIps, req[k].peer.allowedIps)
    {
      SampleHolds(j, k);
    }
  }
}
