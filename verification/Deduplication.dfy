/** Assigning meshnet addresses to configured peers so that no address is routed twice. */
module Deduplication {
  import opened Basics
  import opened Peers

  datatype ConfigPeer = ConfigPeer(
    publicKey: PublicKey,
    hostname: string,
    nickname: Option<string>,
    ipAddresses: Option<seq<IpAddr>>,
    isLocal: bool,
    allowIncoming: bool,
    allowRouting: bool,
    allowLocalNetwork: bool,
    allowSendFiles: bool)

  /** The addresses of a peer that are not occupied yet, each taken once. */
  function Keep(ips: seq<IpAddr>, occupied: set<IpAddr>): seq<IpAddr> {
    if ips == [] then []
    else
      var init, last := ips[..|ips| - 1], ips[|ips| - 1];
      var kept := Keep(init, occupied);
      if last in occupied || last in init then kept else kept + [last]
  }

  function Ips(peer: ConfigPeer): seq<IpAddr> {
    peer.ipAddresses.GetOr([])
  }

  /** Every address claimed by some peer of the list. */
  function Claims(peers: seq<ConfigPeer>): set<IpAddr> {
    set i, ip | 0 <= i < |peers| && ip in Ips(peers[i]) :: ip
  }

  /** The assignment, for peers in the order in which they claim addresses. */
  function Assign(peers: seq<ConfigPeer>): map<PublicKey, seq<IpAddr>> {
    if peers == [] then map[]
    else
      var init, last := peers[..|peers| - 1], peers[|peers| - 1];
      var before := Assign(init);
      if last.ipAddresses.None? then before
      else before[last.publicKey := Keep(last.ipAddresses.value, Claims(init))]
  }

  function Select(peers: seq<ConfigPeer>, local: bool): seq<ConfigPeer> {
    if peers == [] then []
    else
      var init, last := peers[..|peers| - 1], peers[|peers| - 1];
      Select(init, local) + if last.isLocal == local then [last] else []
  }

  /** Local peers claim first, external ones after them. */
  function ClaimOrder(peers: seq<ConfigPeer>): seq<ConfigPeer> {
    Select(peers, true) + Select(peers, false)
  }

  lemma ClaimsSnoc(peers: seq<ConfigPeer>, peer: ConfigPeer)
    ensures Claims(peers + [peer]) == Claims(peers) + Elements(Ips(peer))
  {
    forall ip | ip in Claims(peers) + Elements(Ips(peer))
      ensures ip in Claims(peers + [peer])
    {
      if ip in Claims(peers) {
        var i :| 0 <= i < |peers| && ip in Ips(peers[i]);
        assert (peers + [peer])[i] == peers[i];
      } else {
        assert (peers + [peer])[|peers|] == peer;
      }
    }
  }

  lemma AssignSnoc(peers: seq<ConfigPeer>, peer: ConfigPeer)
    ensures Assign(peers + [peer]) ==
            if peer.ipAddresses.None? then Assign(peers)
            else Assign(peers)[peer.publicKey := Keep(peer.ipAddresses.value, Claims(peers))]
  {
    assert (peers + [peer])[..|peers|] == peers;
  }

  /** Claim the free addresses of one peer, marking them occupied. */
  method ClaimIps(ips: seq<IpAddr>, occupied: seq<IpAddr>) returns (kept: seq<IpAddr>, occupied': seq<IpAddr>)
    ensures kept == Keep(ips, Elements(occupied))
    ensures Elements(occupied') == Elements(occupied) + Elements(ips)
  {
    kept, occupied' := [], occupied;
    for i := 0 to |ips|
      invariant kept == Keep(ips[..i], Elements(occupied))
      invariant Elements(occupied') == Elements(occupied) + Elements(ips[..i])
    {
      assert ips[..i + 1] == ips[..i] + [ips[i]];
      assert ips[..i + 1][..i] == ips[..i];
      ElementsAppend(ips[..i], ips[i]);
      assert ips[i] in occupied' <==> ips[i] in Elements(occupied');
      assert ips[i] in ips[..i] <==> ips[i] in Elements(ips[..i]);
      if ips[i] !in occupied' {
        ElementsAppend(occupied', ips[i]);
        kept, occupied' := kept + [ips[i]], occupied' + [ips[i]];
      }
    }
    assert ips[..|ips|] == ips;
  }

  method DeduplicatePeerIps(peers: seq<ConfigPeer>) returns (peerIps: map<PublicKey, seq<IpAddr>>)
    ensures peerIps == Assign(ClaimOrder(peers))
  {
    peerIps := map[];
    var occupied: seq<IpAddr> := [];
    var external: seq<ConfigPeer> := [];
    for i := 0 to |peers|
      invariant external == Select(peers[..i], false)
      invariant peerIps == Assign(Select(peers[..i], true))
      invariant Elements(occupied) == Claims(Select(peers[..i], true))
    {
      SelectSnoc(peers, i);
      if !peers[i].isLocal {
        external := external + [peers[i]];
      } else {
        peerIps, occupied := ClaimFor(peers[i], peerIps, occupied, Select(peers[..i], true));
      }
    }
    assert peers[..|peers|] == peers;
    peerIps := ClaimExternal(external, peerIps, occupied, Select(peers, true));
  }

  lemma SelectSnoc(peers: seq<ConfigPeer>, i: nat)
    requires i < |peers|
    ensures Select(peers[..i + 1], peers[i].isLocal) == Select(peers[..i], peers[i].isLocal) + [peers[i]]
    ensures Select(peers[..i + 1], !peers[i].isLocal) == Select(peers[..i], !peers[i].isLocal)
  {
    assert peers[..i + 1][..i] == peers[..i];
  }

  method ClaimExternal(
      external: seq<ConfigPeer>, granted: map<PublicKey, seq<IpAddr>>, taken: seq<IpAddr>,
      ghost locals: seq<ConfigPeer>)
    returns (peerIps: map<PublicKey, seq<IpAddr>>)
    requires granted == Assign(locals) && Elements(taken) == Claims(locals)
    ensures peerIps == Assign(locals + external)
  {
    peerIps := granted;
    var occupied := taken;
    assert locals + external[..0] == locals;
    for i := 0 to |external|
      invariant peerIps == Assign(locals + external[..i])
      invariant Elements(occupied) == Claims(locals + external[..i])
    {
      assert locals + external[..i + 1] == locals + external[..i] + [external[i]];
      peerIps, occupied := ClaimFor(external[i], peerIps, occupied, locals + external[..i]);
    }
    assert external[..|external|] == external;
  }

  /** Record one peer's claim, after the peers in `before`. */
  method ClaimFor(
      peer: ConfigPeer, peerIps: map<PublicKey, seq<IpAddr>>, occupied: seq<IpAddr>, ghost before: seq<ConfigPeer>)
    returns (peerIps': map<PublicKey, seq<IpAddr>>, occupied': seq<IpAddr>)
    requires peerIps == Assign(before) && Elements(occupied) == Claims(before)
    ensures peerIps' == Assign(before + [peer])
    ensures Elements(occupied') == Claims(before + [peer])
  {
    ClaimsSnoc(before, peer);
    AssignSnoc(before, peer);
    peerIps', occupied' := peerIps, occupied;
    if peer.ipAddresses.Some? {
      var kept;
      kept, occupied' := ClaimIps(peer.ipAddresses.value, occupied);
      peerIps' := peerIps[peer.publicKey := kept];
    }
  }

  // ---- What the assignment means ----

  /** `s` lists the positions `at` of `t`, in increasing order. */
  ghost predicate Embeds<T>(at: seq<nat>, s: seq<T>, t: seq<T>) {
    && |at| == |s|
    && (forall i :: 0 <= i < |at| ==> at[i] < |t| && s[i] == t[at[i]])
    && (forall i, j :: 0 <= i < j < |at| ==> at[i] < at[j])
  }

  ghost predicate Subsequence<T>(s: seq<T>, t: seq<T>) {
    exists at :: Embeds(at, s, t)
  }

  lemma EmbedsSnoc<T>(at: seq<nat>, s: seq<T>, t: seq<T>, x: T)
    requires Embeds(at, s, t)
    ensures Embeds(at, s, t + [x])
    ensures Embeds(at + [|t|], s + [x], t + [x])
  {
  }

  lemma {:induction false} KeepContents(ips: seq<IpAddr>, occupied: set<IpAddr>)
    ensures Distinct(Keep(ips, occupied))
    ensures Elements(Keep(ips, occupied)) == Elements(ips) - occupied
  {
    if ips != [] {
      var init, last := ips[..|ips| - 1], ips[|ips| - 1];
      KeepContents(init, occupied);
      assert ips == init + [last];
      ElementsAppend(init, last);
      ElementsAppend(Keep(init, occupied), last);
      assert last in init <==> last in Elements(init);
      assert last in Keep(init, occupied) <==> last in Elements(Keep(init, occupied));
    }
  }

  lemma {:induction false} KeepOrder(ips: seq<IpAddr>, occupied: set<IpAddr>)
    ensures Subsequence(Keep(ips, occupied), ips)
  {
    if ips == [] {
      assert Embeds([], Keep(ips, occupied), ips);
    } else {
      var init, last := ips[..|ips| - 1], ips[|ips| - 1];
      KeepOrder(init, occupied);
      var at :| Embeds(at, Keep(init, occupied), init);
      EmbedsSnoc(at, Keep(init, occupied), init, last);
      assert ips == init + [last];
    }
  }

  lemma KeepMeaning(ips: seq<IpAddr>, occupied: set<IpAddr>)
    ensures Distinct(Keep(ips, occupied))
    ensures Elements(Keep(ips, occupied)) == Elements(ips) - occupied
    ensures Subsequence(Keep(ips, occupied), ips)
  {
    KeepContents(ips, occupied);
    KeepOrder(ips, occupied);
  }

  /** `c` is the first peer, in claiming order, to claim `ip`. */
  ghost predicate FirstClaimant(order: seq<ConfigPeer>, c: nat, ip: IpAddr) {
    c < |order| && ip in Ips(order[c]) && forall i :: 0 <= i < c ==> ip !in Ips(order[i])
  }

  ghost predicate DistinctKeys(order: seq<ConfigPeer>) {
    forall i, j :: 0 <= i < j < |order| ==> order[i].publicKey != order[j].publicKey
  }

  /** Whatever the configuration, repeated keys included: every assigned address was claimed, none is assigned twice. */
  lemma {:induction false} NoAddressTwice(order: seq<ConfigPeer>)
    ensures forall k :: k in Assign(order) ==> Distinct(Assign(order)[k])
    ensures forall k, ip :: k in Assign(order) && ip in Assign(order)[k] ==> ip in Claims(order)
    ensures forall j, k, ip ::
              j in Assign(order) && k in Assign(order) && ip in Assign(order)[j] && ip in Assign(order)[k] ==> j == k
  {
    if order != [] {
      var init, last := order[..|order| - 1], order[|order| - 1];
      assert order == init + [last];
      NoAddressTwice(init);
      ClaimsSnoc(init, last);
      if last.ipAddresses.Some? {
        var kept := Keep(last.ipAddresses.value, Claims(init));
        KeepMeaning(last.ipAddresses.value, Claims(init));
        assert forall ip :: ip in kept <==> ip in Elements(kept);
      }
    }
  }

  /** `c` is the last peer to claim addresses under its key, so the entry of that key is its own. */
  ghost predicate OwnsEntry(order: seq<ConfigPeer>, c: nat) {
    && c < |order| && order[c].ipAddresses.Some?
    && (forall i :: c < i < |order| ==> order[i].publicKey != order[c].publicKey || order[i].ipAddresses.None?)
  }

  /**
   The entry of a key consists of exactly the addresses its owner is the first to claim, in the owner's order.
   With distinct keys every peer listing addresses owns its entry; with repeated ones the last such peer does.
   */
  lemma {:induction false} FirstClaimantWins(order: seq<ConfigPeer>, c: nat)
    requires OwnsEntry(order, c)
    ensures order[c].publicKey in Assign(order)
    ensures Assign(order)[order[c].publicKey] == Keep(Ips(order[c]), Claims(order[..c]))
    ensures forall ip :: ip in Assign(order)[order[c].publicKey] <==> FirstClaimant(order, c, ip)
    ensures Subsequence(Assign(order)[order[c].publicKey], Ips(order[c]))
  {
    var init, last := order[..|order| - 1], order[|order| - 1];
    if c < |init| {
      FirstClaimantWins(init, c);
      assert init[..c] == order[..c];
    }
    var kept := Keep(Ips(order[c]), Claims(order[..c]));
    KeepMeaning(Ips(order[c]), Claims(order[..c]));
    forall ip
      ensures ip in kept <==> FirstClaimant(order, c, ip)
    {
      assert ip in kept <==> ip in Elements(kept);
      assert ip in Ips(order[c]) <==> ip in Elements(Ips(order[c]));
      assert ip in Claims(order[..c]) <==> exists i :: 0 <= i < c && ip in Ips(order[..c][i]);
    }
  }

  lemma {:induction false} SelectMeaning(peers: seq<ConfigPeer>, local: bool)
    ensures forall q :: q in Select(peers, local) <==> q in peers && q.isLocal == local
  {
    if peers != [] {
      var init, last := peers[..|peers| - 1], peers[|peers| - 1];
      SelectMeaning(init, local);
      assert peers == init + [last];
    }
  }

  lemma {:induction false} EntryOwner(order: seq<ConfigPeer>, e: nat) returns (c: nat)
    requires e < |order| && order[e].ipAddresses.Some?
    ensures e <= c && OwnsEntry(order, c) && order[c].publicKey == order[e].publicKey
    decreases |order| - e
  {
    if OwnsEntry(order, e) {
      c := e;
    } else {
      var i: nat :| e < i < |order| && order[i].publicKey == order[e].publicKey && order[i].ipAddresses.Some?;
      c := EntryOwner(order, i);
    }
  }

  /** Every entry has an owner. */
  lemma {:induction false} OwnerOf(order: seq<ConfigPeer>, k: PublicKey) returns (c: nat)
    requires k in Assign(order)
    ensures OwnsEntry(order, c) && order[c].publicKey == k
  {
    var init, last := order[..|order| - 1], order[|order| - 1];
    if last.publicKey == k && last.ipAddresses.Some? {
      c := |order| - 1;
    } else {
      c := OwnerOf(init, k);
    }
  }

  /**
   An external peer is never assigned an address that a local peer claims. Repeated keys do no harm, except that
   an external peer listing no addresses would share the entry of a local peer of the same key.
   */
  lemma ExternalNeverTakesLocal(peers: seq<ConfigPeer>, ext: ConfigPeer, loc: ConfigPeer, ip: IpAddr)
    requires ext in peers && !ext.isLocal && loc in peers && loc.isLocal && ip in Ips(loc)
    requires ext.ipAddresses.Some? || DistinctKeys(ClaimOrder(peers))
    ensures ext.ipAddresses.Some? <==> ext.publicKey in Assign(ClaimOrder(peers))
    ensures ext.publicKey in Assign(ClaimOrder(peers)) ==> ip !in Assign(ClaimOrder(peers))[ext.publicKey]
  {
    var order, locals := ClaimOrder(peers), Select(peers, true);
    SelectMeaning(peers, true);
    SelectMeaning(peers, false);
    var l :| 0 <= l < |locals| && locals[l] == loc;
    var e :| 0 <= e < |Select(peers, false)| && Select(peers, false)[e] == ext;
    assert order[l] == loc && order[|locals| + e] == ext;
    if ext.ipAddresses.Some? {
      var c := EntryOwner(order, |locals| + e);
      FirstClaimantWins(order, c);
    } else {
      NoAddressNoEntry(order, |locals| + e);
    }
  }

  lemma {:induction false} NoAddressNoEntry(order: seq<ConfigPeer>, c: nat)
    requires DistinctKeys(order) && c < |order| && order[c].ipAddresses.None?
    ensures order[c].publicKey !in Assign(order)
  {
    var init, last := order[..|order| - 1], order[|order| - 1];
    if c < |init| {
      NoAddressNoEntry(init, c);
    } else {
      NotAssigned(init, last.publicKey);
    }
  }

  lemma {:induction false} NotAssigned(order: seq<ConfigPeer>, k: PublicKey)
    requires forall i :: 0 <= i < |order| ==> order[i].publicKey != k
    ensures k !in Assign(order)
  {
    if order != [] {
      NotAssigned(order[..|order| - 1], k);
    }
  }
}
