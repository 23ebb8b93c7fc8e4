/** Reconciling the firewall whitelists with the meshnet configuration. */
module Firewall {
  import opened Basics
  import opened Peers
  import opened Deduplication
  import opened Requested

  datatype Permission = IncomingConnections | LocalAreaConnections | RoutingConnections

  const PERMISSIONS: seq<Permission> := [IncomingConnections, LocalAreaConnections, RoutingConnections]
  const FILE_SEND_PORT: nat := 49111

  function ConfigPeers(config: Option<Config>): seq<ConfigPeer> {
    if config.Some? then config.value.peers.GetOr([]) else []
  }

  predicate Allows(peer: ConfigPeer, perm: Permission) {
    match perm
    case IncomingConnections => peer.allowIncoming
    case LocalAreaConnections => peer.allowLocalNetwork
    case RoutingConnections => peer.allowRouting
  }

  function Flagged(config: Option<Config>, perm: Permission): set<PublicKey> {
    set q | q in ConfigPeers(config) && Allows(q, perm) :: q.publicKey
  }

  function Senders(config: Option<Config>): set<PublicKey> {
    set q | q in ConfigPeers(config) && q.allowSendFiles :: q.publicKey
  }

  function Key(k: Option<PublicKey>): set<PublicKey> {
    if k.Some? then {k.value} else {}
  }

  /** The whitelist of a permission, as a function of the latest inputs alone. */
  function Whitelist(config: Option<Config>, starcast: Option<PublicKey>, dns: Option<PublicKey>, perm: Permission)
    : set<PublicKey>
  {
    match perm
    case IncomingConnections => Flagged(config, perm) + Key(starcast)
    case LocalAreaConnections => Flagged(config, perm)
    case RoutingConnections => Flagged(config, perm) + Key(starcast) + Key(dns)
  }

  datatype Inputs = Inputs(
    config: Option<Config>, exitNode: Option<ExitNode>, starcast: Option<PublicKey>, dns: Option<PublicKey>)

  predicate IsMeshKey(config: Option<Config>, k: PublicKey) {
    exists q :: q in ConfigPeers(config) && q.publicKey == k
  }

  /** The VPN entry: set whenever the exit node is not a meshnet peer, and never removed here. */
  function VpnPeer(before: Option<PublicKey>, i: Inputs): Option<PublicKey> {
    if i.exitNode.Some? && !IsMeshKey(i.config, i.exitNode.value.publicKey)
    then Some(i.exitNode.value.publicKey) else before
  }

  /** The rules a consolidation manages. */
  datatype Rules = Rules(
    whitelists: map<Permission, set<PublicKey>>, ports: map<PublicKey, nat>, vpnPeer: Option<PublicKey>)

  function Whitelists(i: Inputs): map<Permission, set<PublicKey>> {
    map[IncomingConnections := Whitelist(i.config, i.starcast, i.dns, IncomingConnections),
        LocalAreaConnections := Whitelist(i.config, i.starcast, i.dns, LocalAreaConnections),
        RoutingConnections := Whitelist(i.config, i.starcast, i.dns, RoutingConnections)]
  }

  /** The effect of one consolidation; a peer that stays port-whitelisted keeps its port. */
  function Reconciled(r: Rules, i: Inputs): Rules {
    Rules(
      Whitelists(i),
      map k | k in Senders(i.config) :: if k in r.ports then r.ports[k] else FILE_SEND_PORT,
      VpnPeer(r.vpnPeer, i))
  }

  function ReconciledAll(r: Rules, past: seq<Inputs>): Rules {
    if past == [] then r else Reconciled(ReconciledAll(r, past[..|past| - 1]), past[|past| - 1])
  }

  ghost predicate OnlyFilePort(r: Rules) {
    forall k :: k in r.ports ==> r.ports[k] == FILE_SEND_PORT
  }

  lemma {:induction false} PortsStayFilePort(r: Rules, past: seq<Inputs>)
    requires OnlyFilePort(r)
    ensures OnlyFilePort(ReconciledAll(r, past))
  {
    if past != [] {
      PortsStayFilePort(r, past[..|past| - 1]);
    }
  }

  /** The rules after any history of configurations, as a function of the latest inputs alone. */
  lemma LatestInputsDecide(r: Rules, past: seq<Inputs>, i: Inputs)
    requires OnlyFilePort(r)
    ensures ReconciledAll(r, past + [i]).whitelists == Whitelists(i)
    ensures ReconciledAll(r, past + [i]).ports == map k | k in Senders(i.config) :: FILE_SEND_PORT
  {
    assert (past + [i])[..|past|] == past;
    PortsStayFilePort(r, past);
  }

  /** After any two histories the latest inputs give the same whitelists and the same port list. */
  lemma HistoryIsForgotten(r1: Rules, r2: Rules, past1: seq<Inputs>, past2: seq<Inputs>, i: Inputs)
    requires OnlyFilePort(r1) && OnlyFilePort(r2)
    ensures ReconciledAll(r1, past1 + [i]).whitelists == ReconciledAll(r2, past2 + [i]).whitelists
    ensures ReconciledAll(r1, past1 + [i]).ports == ReconciledAll(r2, past2 + [i]).ports
  {
    LatestInputsDecide(r1, past1, i);
    LatestInputsDecide(r2, past2, i);
  }

  lemma WhitelistsOf(lists: map<Permission, set<PublicKey>>, i: Inputs)
    requires lists.Keys == {IncomingConnections, LocalAreaConnections, RoutingConnections}
    requires forall perm :: perm in lists ==> lists[perm] == Whitelist(i.config, i.starcast, i.dns, perm)
    ensures lists == Whitelists(i)
  {
  }

  class StatefulFirewall {
    var whitelists: map<Permission, set<PublicKey>>
    var ports: map<PublicKey, nat>
    var vpnPeer: Option<PublicKey>
    var ownIps: seq<IpAddr>

    ghost predicate Valid()
      reads this
    {
      whitelists.Keys == {IncomingConnections, LocalAreaConnections, RoutingConnections}
    }

    ghost function View(): Rules
      reads this
    {
      Rules(whitelists, ports, vpnPeer)
    }

    constructor ()
      ensures Valid() && ports == map[] && vpnPeer == None && ownIps == []
      ensures whitelists == map[IncomingConnections := {}, LocalAreaConnections := {}, RoutingConnections := {}]
    {
      whitelists := map[IncomingConnections := {}, LocalAreaConnections := {}, RoutingConnections := {}];
      ports, vpnPeer, ownIps := map[], None, [];
    }

    method UpsertPeerWhitelist(config: Option<Config>, perm: Permission)
      requires Valid() && perm in whitelists
      modifies this`whitelists
      ensures Valid() && whitelists == old(whitelists)[perm := Flagged(config, perm)]
    {
      var from, to := whitelists[perm], Flagged(config, perm);
      var deletes, adds := from - to, to - from;
      assert to * from + deletes == from;
      while deletes != {}
        invariant deletes <= from - to
        invariant whitelists == old(whitelists)[perm := to * from + deletes]
        decreases deletes
      {
        var key :| key in deletes;
        assert (to * from + deletes) - {key} == to * from + (deletes - {key});
        whitelists := whitelists[perm := whitelists[perm] - {key}];
        deletes := deletes - {key};
      }
      assert to * from + deletes == to - adds;
      while adds != {}
        invariant adds <= to - from
        invariant whitelists == old(whitelists)[perm := to - adds]
        decreases adds
      {
        var key :| key in adds;
        assert (to - adds) + {key} == to - (adds - {key});
        whitelists := whitelists[perm := whitelists[perm] + {key}];
        adds := adds - {key};
      }
      assert to - adds == to;
    }

    method UpsertPorts(config: Option<Config>)
      modifies this`ports
      ensures ports == map k | k in Senders(config) :: if k in old(ports) then old(ports)[k] else FILE_SEND_PORT
    {
      var from, to := ports.Keys, Senders(config);
      var deletes, adds := from - to, to - from;
      while deletes != {}
        invariant deletes <= from - to
        invariant ports == old(ports) - ((from - to) - deletes)
        decreases deletes
      {
        var key :| key in deletes;
        ports := ports - {key};
        deletes := deletes - {key};
      }
      while adds != {}
        invariant adds <= to - from && ports.Keys == to - adds
        invariant forall k :: k in ports ==> ports[k] == if k in old(ports) then old(ports)[k] else FILE_SEND_PORT
        decreases adds
      {
        var key :| key in adds;
        ports := ports[key := FILE_SEND_PORT];
        adds := adds - {key};
      }
    }

    /** Returns false, after all rules are in place, when the configuration lacks the device's own addresses. */
    method Consolidate(i: Inputs) returns (ok: bool)
      requires Valid()
      modifies this
      ensures Valid() && View() == Reconciled(old(View()), i)
      ensures ok <==> i.config.Some? ==> i.config.value.thisIps.Some?
      ensures ownIps == if i.config.Some? then i.config.value.thisIps.GetOr(old(ownIps)) else old(ownIps)
    {
      AddVpnPeer(i);
      UpsertWhitelists(i.config);
      AllowHelpers(i);
      UpsertPorts(i.config);
      WhitelistsOf(whitelists, i);
      ok := true;
      if i.config.Some? {
        if i.config.value.thisIps.None? {
          return false;
        }
        ownIps := i.config.value.thisIps.value;
      }
    }

    method AddVpnPeer(i: Inputs)
      modifies this`vpnPeer
      ensures vpnPeer == VpnPeer(old(vpnPeer), i)
    {
      if i.exitNode.Some? {
        if !IsMeshKey(i.config, i.exitNode.value.publicKey) {
          vpnPeer := Some(i.exitNode.value.publicKey);
        }
      }
    }

    method UpsertWhitelists(config: Option<Config>)
      requires Valid()
      modifies this`whitelists
      ensures Valid() && forall perm :: perm in whitelists ==> whitelists[perm] == Flagged(config, perm)
    {
      for n := 0 to |PERMISSIONS|
        invariant Valid()
        invariant forall m :: 0 <= m < n ==> whitelists[PERMISSIONS[m]] == Flagged(config, PERMISSIONS[m])
      {
        UpsertPeerWhitelist(config, PERMISSIONS[n]);
      }
      assert PERMISSIONS[0] == IncomingConnections && PERMISSIONS[1] == LocalAreaConnections;
      assert PERMISSIONS[2] == RoutingConnections;
    }

    method AllowHelpers(i: Inputs)
      requires Valid() && forall perm :: perm in whitelists ==> whitelists[perm] == Flagged(i.config, perm)
      modifies this`whitelists
      ensures Valid()
      ensures forall perm :: perm in whitelists ==> whitelists[perm] == Whitelist(i.config, i.starcast, i.dns, perm)
    {
      if i.starcast.Some? {
        AllowPeer(i.starcast.value, RoutingConnections);
        AllowPeer(i.starcast.value, IncomingConnections);
      }
      if i.dns.Some? {
        AllowPeer(i.dns.value, RoutingConnections);
      }
    }

    method AllowPeer(key: PublicKey, perm: Permission)
      requires Valid() && perm in whitelists
      modifies this`whitelists
      ensures Valid() && whitelists == old(whitelists)[perm := old(whitelists)[perm] + {key}]
    {
      whitelists := whitelists[perm := whitelists[perm] + {key}];
    }
  }
}
