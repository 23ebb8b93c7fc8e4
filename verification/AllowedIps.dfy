/** The allowed-IP check on the requested peers: a running union that must stay disjoint from every next peer. */
module AllowedIps {
  import opened Basics
  import opened Peers

  function NetSet(nets: seq<IpNet>): set<IpNet> {
    set n | n in nets
  }

  /** The fold, over the peers in the order the map is walked. */
  function Fold(req: Request, order: seq<PublicKey>, seen: set<IpNet>): Option<set<IpNet>>
    requires forall k :: k in order ==> k in req
  {
    if order == [] then Some(seen)
    else
      var nets := NetSet(req[order[0]].peer.allowedIps);
      if seen !! nets then Fold(req, order[1..], seen + nets) else None
  }

  predicate CheckAllowedIps(req: Request, order: seq<PublicKey>)
    requires forall k :: k in order ==> k in req
  {
    Fold(req, order, {}).Some?
  }

  lemma OverlapAsSets(a: seq<IpNet>, b: seq<IpNet>)
    ensures Overlap(a, b) <==> !(NetSet(a) !! NetSet(b))
  {
    if Overlap(a, b) {
      var i :| 0 <= i < |a| && a[i] in b;
      assert a[i] in NetSet(a) && a[i] in NetSet(b);
    }
    if n :| n in NetSet(a) && n in NetSet(b) {
      var i :| 0 <= i < |a| && a[i] == n;
      assert a[i] in b;
    }
  }

  /** The fold accepts exactly when the peers are disjoint from what was seen and from each other. */
  lemma {:induction false} FoldAccepts(req: Request, order: seq<PublicKey>, seen: set<IpNet>)
    requires forall k :: k in order ==> k in req
    ensures Fold(req, order, seen).Some? <==>
            && (forall i :: 0 <= i < |order| ==> seen !! NetSet(req[order[i]].peer.allowedIps))
            && (forall i, j :: 0 <= i < j < |order| ==>
                                 NetSet(req[order[i]].peer.allowedIps) !! NetSet(req[order[j]].peer.allowedIps))
  {
    if order != [] {
      var nets := NetSet(req[order[0]].peer.allowedIps);
      FoldAccepts(req, order[1..], seen + nets);
      assert forall i :: 0 <= i < |order| - 1 ==> order[1..][i] == order[i + 1];
      if seen !! nets && Fold(req, order[1..], seen + nets).Some? {
        forall i | 0 <= i < |order|
          ensures seen !! NetSet(req[order[i]].peer.allowedIps)
        {
          if i > 0 {
            assert order[i] == order[1..][i - 1];
          }
        }
        forall i, j | 0 <= i < j < |order|
          ensures NetSet(req[order[i]].peer.allowedIps) !! NetSet(req[order[j]].peer.allowedIps)
        {
          assert order[j] == order[1..][j - 1];
          if i > 0 {
            assert order[i] == order[1..][i - 1];
          }
        }
      }
    }
  }

  /** Whatever order the peers are walked in, the check accepts exactly the pairwise disjoint requests. */
  lemma CheckAcceptsIff(req: Request, order: seq<PublicKey>)
    requires Enumerates(order, req.Keys)
    ensures forall k :: k in order ==> k in req
    ensures CheckAllowedIps(req, order) <==> DisjointRoutes(req)
  {
    assert forall k :: k in order <==> k in Elements(order);
    FoldAccepts(req, order, {});
    if CheckAllowedIps(req, order) {
      forall j, k | j in req && k in req && j != k
        ensures !Overlap(req[j].peer.allowedIps, req[k].peer.allowedIps)
      {
        var a :| 0 <= a < |order| && order[a] == j;
        var b :| 0 <= b < |order| && order[b] == k;
        OverlapAsSets(req[j].peer.allowedIps, req[k].peer.allowedIps);
      }
    }
    if DisjointRoutes(req) {
      forall i, j | 0 <= i < j < |order|
        ensures NetSet(req[order[i]].peer.allowedIps) !! NetSet(req[order[j]].peer.allowedIps)
      {
        OverlapAsSets(req[order[i]].peer.allowedIps, req[order[j]].peer.allowedIps);
      }
    }
  }
}
