# libtelio controller model

This project models, in Dafny, the parts of libtelio that decide what a device's WireGuard interface looks like and what
the device tells its application and its in-tunnel DNS clients, and proves what those parts guarantee over whole passes
and whole runs. It covers:

- **The consolidation controller** (`src/device/wg_controller.rs`). `Requested` builds the wanted peers; `Consolidation`
  gives one pass over delete, insert and update sets whose iteration order is arbitrary (a *schedule*); `Controller` is the
  object whose methods carry the pass out in place. `Convergence`, `Deadlocks` and `SecondPass` say what passes achieve
  under every schedule; `Settling`, `Rewriting` and `Batching` what ticks come to over whole runs; `Routing`, `Cycle`,
  `UpgradeProtocol`, `SessionKeeping`, `Invalidation` and `Firewall` treat routes, endpoints, upgrade requests between two
  controllers, the session keeper, failed endpoints and whitelists.
- **The device runtime** (`src/device.rs`). `DeviceRuntime` gives each API call and event as one step that may fail half
  way, `Device` is the runtime object, `NodeEvents` the filter on published events, `DnsNames` the layering of names.
- **The in-tunnel DNS server** (`crates/telio-dns`). `DnsPackets` writes replies over a dirty buffer, `Checksum` is the
  Internet checksum of RFC 1071, `Zones` the copy-on-write zone table, `NameLookup` the search of that table
  for the names of the device.
- **Request encryption** (`crates/telio-crypto`), over any cipher satisfying stated laws, and **log suppression**
  (`src/ffi/logging.rs`).

`dafny verify dfyconfig.toml` checks everything.

## Findings

Where a property one would expect turned out false of the code, the code is modelled as it is and the exact condition is
proved.

- `add_peer` stores a keepalive of zero where the request has none (`crates/telio-wg/src/wg.rs:539-541`) and
  `compare_peers` tells the two apart. A pass is therefore followed by one without adapter calls if and only if every
  requested peer has a keepalive, which is never so while the DNS or the starcast peer is in use, or with batching on and
  any peer at all: those peers are handed to `add_peer` again at every pass. What is repeated is the call; the adapter task
  itself drops an interface that did not change (`crates/telio-wg/src/wg.rs:997-1001`).
- With batching on and no link state for a peer, that zero makes three keepalive periods zero as well, so the peer is never
  in contact: no upgrade request is ever sent to it, and every completed tick without one from it puts it on the relay. The
  result on direct links being kept is empty for such a peer.
- `add_peer` refuses a network that another peer still holds (`crates/telio-wg/src/wg.rs:513-531`). Every iteration order of
  a pass succeeds if and only if no network moves from a surviving peer to a written one. Some order does if and only if no
  new peer takes a network of a surviving one and no surviving peers pass networks around in a circle, of two or more; else
  every retry fails as well. Connecting to a VPN exit node with the default routes while a meshnet peer is the exit node is
  such a case.
- A meshnet peer is routed exactly the addresses it is the first to claim, except that a key listed twice is routed none.
- The complete list passes the allowed-IP check if and only if no meshnet peer is routed a network of the exit node or one
  reserved for a virtual peer in use, and the exit node has none of the reserved ones. Otherwise every consolidation fails.
- Connecting stops post-quantum key rotation before it looks for an endpoint (`src/device.rs:2033`) and never starts it again
  for the earlier exit node. While rotation runs for the requested node, a call makes the next successful consolidation tunnel without a preshared
  key if and only if it is a plain connect to a node with an endpoint, as wanted; a connect to a node without one, which is
  refused but leaves the earlier node requested and unprotected; or a post-quantum connect in which something goes wrong.
- A UDP checksum computed as zero is sent as zero, which RFC 768 reserves and section 8.1 of RFC 8200 forbids; it happens if
  and only if the rest already sums to all ones, and for every query there are answers for which it does.
- A nickname of the form `*.x` next to a nickname `x` resolves to the other device.
- The zone's name check tests containment, although its error message speaks of a suffix, while the search for an authority
  goes by labels. A table with a name that is never answered from it is accepted if and only if every hostname contains the
  zone's name and some hostname does not lie in the zone; `xnord`, a suffix as text, does not. One hostname without the
  zone's name makes the whole table be refused.

## Model

| member | source | states |
|---|---|---|
| Controller.Controller.AddPeer | crates/telio-wg/src/wg.rs:509-548 | refuses exactly when another peer holds one of the networks; otherwise stores the peer with a defaulted keepalive, kept handshake state and a push stamp when the endpoint changes |
| Controller.Controller.DelPeer | crates/telio-wg/src/wg.rs:550-558 | removes the peer and nothing else |
| Controller.Controller.Remove | src/device/wg_controller.rs:410-430 | a deletion takes the key out of interface and session keeper alike |
| Controller.Controller.Add | src/device/wg_controller.rs:432-453 | an insertion writes the peer and tracks it when it has a batching interval and an address to ping, or stops the pass unchanged |
| Controller.Controller.Refresh | src/device/wg_controller.rs:464-583 | an update writes only on a difference, keeps the session keeper in step and sends an upgrade request on a move off the relay |
| Controller.Controller.ConsolidatePeers | src/device/wg_controller.rs:401-595 | the pass rejects overlapping routes without effect, and otherwise equals the run of some complete schedule, applied or stopped at its first refusal |
| Consolidation.FailurePoint | src/device/wg_controller.rs:424-480 | a failed pass has exactly the effects of the operations before the refused one |
| Convergence.PassConverges | src/device/wg_controller.rs:401-480 | under every schedule a successful pass ends in one and the same interface with exactly the requested keys, valid if the old one was |
| Convergence.AgreesIffKeepaliveSet | src/device/wg_controller.rs:1246-1252 | a converged peer agrees with its request under the comparison if and only if the request carries a keepalive; endpoint, routes and preshared key always agree |
| Convergence.RunKeepsValid | crates/telio-wg/src/wg.rs:513-531 | wherever a pass stops, no network is routed to two peers and every peer has a keepalive |
| Deadlocks.EveryOrderSucceedsIff | src/device/wg_controller.rs:432-480 | all schedules of a pass succeed if and only if no network moves from a surviving peer to a written one |
| Deadlocks.FailingSchedule | src/device/wg_controller.rs:432-480 | whenever a network does move, some schedule fails |
| Deadlocks.SomeOrderSucceedsIff | src/device/wg_controller.rs:403-480 | some schedule succeeds if and only if the surviving peers can be ordered so that each comes after the holders of its networks, with no new peer needing one; that is, if and only if no set of peers waits for itself |
| Deadlocks.NoOrderSucceedsIff | src/device/wg_controller.rs:403-480 | on an interface routing no network twice, all schedules fail if and only if a new peer is to take a network of a surviving one or surviving peers are to pass networks around in a circle of any length |
| Deadlocks.ThreePeersRotate | src/device/wg_controller.rs:464-480 | three peers passing their networks on, no two of which swap, fail under every schedule |
| Deadlocks.DeadlockedPassFails | src/device/wg_controller.rs:432-480 | with new peers waiting for networks of surviving ones, or surviving peers for each other's, every schedule fails and leaves the same deadlock behind |
| Deadlocks.DeadlockIsPermanent | src/device/wg_controller.rs:432-480 | such a request fails at every one of any number of retries, in whatever orders and whatever else changes about the peers |
| Deadlocks.FailsForever | src/device/wg_controller.rs:403-480 | a pass that fails in every order fails at every retry |
| SecondPass.SecondPass | src/device/wg_controller.rs:464-480 | after a successful pass the same request succeeds again, changes no peer, deletes nothing and writes exactly the peers without a keepalive |
| SecondPass.SecondPassSilentIff | src/device/wg_controller.rs:464-480 | it makes no adapter call if and only if every requested peer carries a keepalive |
| Rewriting.NothingUnsetIff | src/device/wg_controller.rs:749-894 | every requested peer carries a keepalive if and only if neither DNS nor starcast peer is in use, batching is off as soon as there is any peer, the keepalives of an added exit node and of the STUN server are configured, and so is the relay's if some meshnet peer is to be relayed, none of which is reported offline |
| Rewriting.BatchingUnsetsAll | src/device/wg_controller.rs:749-894 | with batching on, no requested peer carries one |
| Rewriting.UnmovedTickSilentIff | src/device/wg_controller.rs:464-480 | after a successful tick, a next one wanting the same that moves nobody leaves the interface as it is, and makes no adapter call if and only if every requested peer carries a keepalive |
| Rewriting.RepetitionSucceeds | src/device/wg_controller.rs:401-480 | once a tick has succeeded, the next one wanting the same does, whatever is observed and in every order |
| Settling.MovesBounded | src/device/wg_controller.rs:88-125 | in every run of ticks, aborted ones included and whatever is heard, the controller moves a meshnet peer at most twice, plus twice for every new candidate, upgrade request of the other side, change of relays or roaming |
| Settling.PotentialFalls | src/device/wg_controller.rs:229-325 | without such news every move uses up one of at most two, because the invalidation after a move to the relay withdraws the candidate |
| Settling.SentMeansMoved | src/device/wg_controller.rs:531-549 | an upgrade request is only sent along with the move it announces, in aborted passes too |
| Settling.MovesTwice | src/device/wg_controller.rs:1202-1239 | the bound is met: a run of two ticks without news that move a relayed peer to its candidate and back |
| Batching.NeverInContact | src/device/wg_controller.rs:1268-1318 | in every run with batching on, at each tick without link state for a peer: it is not in contact, is sent no upgrade request, and after a completed tick without one from it is on its first relay address |
| Batching.ContactNeedsLink | src/device/wg_controller.rs:1295-1318 | a peer stored with a keepalive of zero is in contact if and only if link detection says so and it was heard within 180 seconds |
| ExitSwitch.SwitchNeverSucceeds | src/device/wg_controller.rs:750-811 | while a meshnet peer holds the default route on the interface, asking for a fresh VPN exit node with the default routes fails at every tick of every run of retries |
| ExitSwitch.SwitchDeadlocks | src/device/wg_controller.rs:750-811 | such a tick is a deadlock between the two exit nodes |
| ExitSwitch.SwitchHappens | src/device/wg_controller.rs:750-811 | a tick at which such a switch is asked for |
| ExitSwitch.RoutesIgnoreObservations | src/device/wg_controller.rs:924-985 | the requested routes depend on what is wanted, never on what is observed |
| AllowedIps.CheckAcceptsIff | src/device/wg_controller.rs:597-612 | in whatever order the peers are walked, the running union accepts if and only if every two peers' networks are disjoint |
| Deduplication.DeduplicatePeerIps | src/device/wg_controller.rs:1097-1133 | the two loops compute the assignment in claiming order, local peers first |
| Deduplication.NoAddressTwice | src/device/wg_controller.rs:1097-1133 | for every configuration, repeated keys included, no address is assigned twice, within or across peers, and only claimed ones are |
| Deduplication.FirstClaimantWins | src/device/wg_controller.rs:1097-1133 | for every configuration, the entry of a key holds exactly the addresses that the last peer listing addresses under it is the first of all to claim, in that peer's order; with distinct keys that is every peer |
| Deduplication.ExternalNeverTakesLocal | src/device/wg_controller.rs:1094-1133 | an external peer is never given an address a local peer claims, repeated keys included unless the external peer lists no addresses and so shares another peer's entry |
| Requested.DescribePeers | src/device/wg_controller.rs:926-985 | every configured key gets one entry, with the addresses granted to it, or none if the key is repeated |
| Requested.FinishPeers | src/device/wg_controller.rs:1001-1089 | every entry is revisited once, in any order, from its own base description |
| Requested.BuildMeshPeers | src/device/wg_controller.rs:899-1092 | the loops over configuration and interface together give the meshnet request that the routing, endpoint and run results are about |
| Requested.BuildRequestedPeers | src/device/wg_controller.rs:717-895 | likewise for the complete request with exit node and virtual peers |
| Requested.ExtendKeeps | src/device/wg_controller.rs:749-894 | adding or promoting an exit node and adding virtual peers changes nothing of an unrelated meshnet peer but its routes |
| Requested.OnlyMeshAdvertises | src/device/wg_controller.rs:749-894 | only meshnet peers carry a local endpoint to advertise |
| Routing.MeshRouteIff | src/device/wg_controller.rs:924-985 | for every configuration, an address is routed to the peer of an entry if and only if its owner is the first to claim it, the key is listed once, and the address is IPv4 or that feature is on |
| Routing.MeshRouteSource | src/device/wg_controller.rs:924-985 | a meshnet peer is routed nothing but such addresses |
| Routing.MeshRoutesDisjoint | src/device/wg_controller.rs:924-985 | the meshnet peers pass the allowed-IP check for every configuration, repeated keys included |
| Routing.DefaultExitRoutesDisjoint | src/device/wg_controller.rs:750-811 | they still do after adding or promoting an exit node with the default routes |
| Routing.CompleteRoutesDisjointIff | src/device/wg_controller.rs:749-894 | for any exit routes, the complete list passes the allowed-IP check if and only if no configured peer but the exit node is routed a network of the exit node or one reserved for a virtual peer in use, and the exit node has none of the reserved ones |
| Routing.ReservedAddressClashes | src/device/wg_controller.rs:814-836 | a configuration that never passes it while DNS is on |
| Routing.RepeatedKeyIsUnreachable | src/device/wg_controller.rs:945-985 | a configuration listing a key twice, with an address nobody else claims, in which that peer is routed nothing |
| Endpoints.ChoiceRules | src/device/wg_controller.rs:1137-1326 | a heard direct link keeps its endpoint; lost contact without a request gives the first relay address; an endpoint is advertised exactly for a heard relayed peer with an own candidate and no request |
| Endpoints.ChoiceSources | src/device/wg_controller.rs:1137-1240 | a chosen endpoint is a request, an own candidate, a relay address or the current one |
| Cycle.TickEndpoint | src/device/wg_controller.rs:464-480 | a tick, complete or aborted, leaves a surviving peer's endpoint and stamp alone or sets the requested one stamped with the pass |
| Cycle.DirectLinkSticks | src/device/wg_controller.rs:1001-1065 | in every run of ticks that hear a direct link, its endpoint never changes and nothing is advertised, whatever is pending and even if ticks abort |
| Cycle.LostContactRelays | src/device/wg_controller.rs:1180-1190 | a completed tick without contact or request puts the peer on its first relay address, stamped as pushed when that is a change |
| Cycle.UpgradeIsOwnCheck | src/device/wg_controller.rs:531-549 | an upgrade request goes out only for a relayed, heard peer with nothing pending, carrying the endpoints, types and session of the sender's own candidate |
| Cycle.UpgradeIsSent | src/device/wg_controller.rs:531-549 | and does go out for every meshnet peer a completed tick moves that way |
| UpgradeProtocol.RunsAreSafe | crates/telio-traversal/src/upgrade_sync.rs:206-437 | in every run of two controllers, with messages lost, delayed or repeated: written endpoints are relay addresses or candidates validated by this or by the other side, messages describe the sender's own candidates, a side has at most one request outstanding, only the larger key accepts while its own request lasts, so the two never both do |
| UpgradeProtocol.NoEcho | src/device/wg_controller.rs:1150-1178 | a tick of a side holding an accepted request sends none back and leaves its own request as it was |
| SessionKeeping.KeeperStaysContained | src/device/wg_controller.rs:410-453 | in every run, aborted passes included, only keys of the interface are tracked |
| SessionKeeping.BatchingPassTracks | src/device/wg_controller.rs:482-506 | with batching and a session keeper, a completed pass has every requested peer with an interval and a ping target tracked at exactly that interval |
| SessionKeeping.UnbatchedRunTracks | src/device/wg_controller.rs:482-583 | without batching, a completed pass tracks a surviving peer that left the relay at its keepalive if it can be pinged, forgets one that fell back to the relay and leaves every other as it was |
| Invalidation.CrossPingCheck.InvalidateEndpoints | src/device/wg_controller.rs:229-325 | reports each peer once, and exactly those published strictly before an endpoint change that are relayed or changed by themselves |
| Invalidation.WrittenEndpointReported | src/device/wg_controller.rs:88-125 | an endpoint written by the pass is reported right after it if and only if it is a relay address with an older publication |
| Invalidation.DowngradeReportedSameCycle | src/device/wg_controller.rs:234-251 | losing a direct link is reported in the cycle that falls back to the relay |
| Firewall.StatefulFirewall.UpsertPeerWhitelist | src/device/wg_controller.rs:624-654 | the whitelist becomes exactly the flagged peers, other permissions unchanged |
| Firewall.StatefulFirewall.UpsertPorts | src/device/wg_controller.rs:662-704 | the port list becomes exactly the peers allowed to send files, those already there keeping their port |
| Firewall.StatefulFirewall.Consolidate | src/device/wg_controller.rs:656-713 | all rules become those of the inputs, and the result reports missing own addresses |
| Firewall.LatestInputsDecide | src/device/wg_controller.rs:624-704 | after any history the whitelists and the port list are a function of the latest inputs alone |
| Firewall.HistoryIsForgotten | src/device/wg_controller.rs:624-704 | any two histories ending in the same inputs give the same whitelists and ports |
| DeviceRuntime.RunsAreSafe | src/device.rs:1777-2157 | in every run of calls and events from start-up, some failing half way: a meshnet configuration and the post-quantum task never coexist, no network is routed twice, the session keeper tracks only peers of the interface, and after every turn with key rotation running the exit node is absent or carries the current shared key, unless the turn failed before completing its pass and left the exit node's record as it was |
| DeviceRuntime.StepExclusive | src/device.rs:1777-1793 | no call or event, failing or not, lets a meshnet configuration and the post-quantum task coexist, and a running task serves the requested exit node |
| DeviceRuntime.StepTunnelSafe | src/device/wg_controller.rs:784-809 | the last of these for every single step, successful or not, and so also for a pass completed in a turn that fails afterwards |
| DeviceRuntime.PlainNextIff | src/device.rs:2000-2157 | over all calls and events, while key rotation runs for the requested node: the next successful consolidation tunnels plainly to the node then requested if and only if the call was a plain connect to a node with an endpoint, any connect to a node without one, after which the earlier node is still requested, or a post-quantum connect that broke; else the tunnel is safe |
| DeviceRuntime.RotationDroppedIff | src/device.rs:2020-2071 | exactly connects, and post-quantum ones only if they fail, leave a node requested without key rotation |
| DeviceRuntime.PlainIffNoRotation | src/device/wg_controller.rs:784-809 | without a meshnet a successful consolidation tunnels plainly to the requested node if and only if no key rotation runs |
| DeviceRuntime.PlainExitIff | src/device.rs:2000-2115 | from any state without a meshnet, after a post-quantum connect the next successful consolidation tunnels to the node then requested without a preshared key if and only if the node given had no endpoint, another part failed before or after the peers, the peers were refused, or resetting an earlier exit node's connections failed; otherwise the tunnel is safe |
| DeviceRuntime.ConnectFailsIff | src/device.rs:2000-2115 | a post-quantum connect fails if and only if the meshnet is on, the node has no endpoint or one of these happens; under a meshnet nothing changes, else key rotation runs only if it succeeded and the node is requested unless it has no endpoint |
| DeviceRuntime.PlainExitHappens | src/device.rs:2071-2074 | a fresh device on which it does |
| DeviceRuntime.RefusedConnectDropsRotation | src/device.rs:2032-2069 | a fresh device on which a refused plain connect costs the post-quantum exit node its protection |
| Device.Runtime.Consolidate | src/device/wg_controller.rs:67-150 | every outcome is one the step relation allows: a dead key exchange restarted, then the pass for the resulting request applied, stopped half way or not reached |
| Device.Runtime.SetConfig | src/device.rs:1777-1997 | every outcome, refusals and half-way failures included, is a step of the system the run invariants are proved of |
| Device.Runtime.StoreConfig | src/device.rs:1777-1975 | everything before the consolidation: refused without effect, stopped after storing the configuration, or ready to consolidate |
| Device.Runtime.StartMeshnet | src/device.rs:1810-1935 | starts the meshnet with an empty session keeper unless it runs already, and loses both if it fails in between |
| Device.Runtime.StopMeshnet | src/device.rs:1936-1975 | stops the meshnet, its STUN server and session keeper, and forgets an exit node that was a meshnet peer |
| Device.Runtime.ConnectExitNodePq | src/device.rs:2000-2044 | refused under a meshnet; otherwise such a step, after which key rotation runs only if the call succeeded |
| Device.Runtime.ConnectExitNode | src/device.rs:2020-2115 | such a step, with the post-quantum task stopped even if the call then fails |
| Device.Runtime.DisconnectExitNodes | src/device.rs:2127-2157 | such a step, with the exit node forgotten even on failure but key rotation stopped only on success |
| Device.Runtime.DisconnectExitNode | src/device.rs:2117-2125 | such a step, refusing any key but that of the requested exit node |
| Device.Runtime.HandlePqEvent | src/device.rs:2460-2510 | such a step, with the keys of the event taken over before the consolidation and kept if that fails |
| NodeEvents.EventPublisher.OnEvent | src/device.rs:2402-2499 | the remembered and published events after each of the three publishing sites are those of the filter proved orderly |
| NodeEvents.StreamsAreOrderly | src/device.rs:2326-2349 | for every sequence of events and every key, the published stream never repeats itself, never starts with a disconnection and disconnects only from something |
| NodeEvents.WithheldOnlyIfRedundant | src/device.rs:2326-2341 | at each of the three publishing sites an event is withheld if and only if the site has none to offer, it repeats the last one, or it reports the loss of something not reported |
| DnsNames.TableMeaning | src/device.rs:1572-1594 | the served names are the base names and their wildcards, each wildcard with its base name's addresses; a base name keeps its own if and only if no other base name's wildcard shadows it |
| DnsNames.NicknameShadowed | src/device.rs:1581-1586 | a concrete configuration in which one nickname resolves to another device |
| DnsNames.BaseMeaning | src/device.rs:925-978 | hostnames override nicknames; a hostname belongs to its last carrier, this device coming last; a nickname to its first valid claimant, this device coming first |
| DnsNames.TableAcceptedIff | crates/telio-dns/src/zone.rs:45-50 | the zone accepts the table if and only if every hostname contains the zone's name; nicknames and wildcards never make it refuse |
| NameLookup.AnsweredFromZoneIff | crates/telio-dns/src/zone.rs:264-270 | with only the meshnet's zone and the root in the catalog, a query is answered from the zone if and only if its last label is the zone's name, else from the root |
| NameLookup.InZoneText | crates/telio-dns/src/zone.rs:264-270 | that is so if and only if the name is the zone's or ends in it after a dot, a final dot aside |
| NameLookup.UnreachableAcceptedIff | crates/telio-dns/src/zone.rs:45-50 | the zone accepts a table with a name that is never answered from it if and only if every hostname contains the zone's name and some hostname does not lie in the zone |
| NameLookup.OutsideNamesAccepted | crates/telio-dns/src/zone.rs:45-50 | two such hostnames, one with the zone's name at the start and one ending in it without a dot: accepted, and answered by the root |
| Zones.FindNearest | crates/telio-dns/src/zone.rs:264-270 | a query is answered by the nearest enclosing zone, and not at all exactly when no zone encloses it |
| Zones.RebuiltAnswersAlike | crates/telio-dns/src/zone.rs:278-292 | if every zone's name is recorded, the rebuilt catalog answers every query like the original, extra names notwithstanding |
| Zones.UnrecordedZoneLost | crates/telio-dns/src/zone.rs:278-292 | a zone whose name is not recorded survives cloning if and only if an enclosing zone has the same authority |
| Zones.ClonableZones.Upsert | crates/telio-dns/src/zone.rs:259-262 | keeps recorded names and catalog keys equal |
| Zones.ClonableZones.Clone | crates/telio-dns/src/zone.rs:278-292 | the copy is fresh, has the same catalog and answers every query alike |
| Zones.NameServer.Snapshot | crates/telio-dns/src/nameserver.rs:642-644 | a reader gets the current table, shared |
| Zones.NameServer.MakeMut | crates/telio-dns/src/nameserver.rs:646-648 | writing goes to a table no reader holds |
| Zones.NameServer.Upsert | crates/telio-dns/src/nameserver.rs:653-665 | the current table changes in one zone and no table held by a reader changes |
| Zones.NameServer.Forward | crates/telio-dns/src/nameserver.rs:667-673 | the same for the root zone |
| Checksum.FoldClosedForm | crates/telio-dns/src/nameserver.rs:442-443 | folding with end-around carry is the residue modulo 0xffff, zero only for an empty sum |
| Checksum.SealedSums | crates/telio-dns/src/nameserver.rs:504-506 | filling in the checksum makes the message sum to all ones, is what a receiver recomputes, and is zero if and only if the rest already summed to all ones |
| DnsPackets.BuildIpHeader | crates/telio-dns/src/nameserver.rs:406-477 | writes exactly the header, fails exactly on a short buffer, keeps only the fragment-offset bits |
| DnsPackets.BuildPayload | crates/telio-dns/src/nameserver.rs:479-510 | writes exactly the datagram behind the header or fails without effect |
| DnsPackets.BuildResponsePacket | crates/telio-dns/src/nameserver.rs:391-404 | succeeds exactly when the reply fits, with bytes independent of the old buffer but for the fragment offset, and nothing written beyond |
| DnsPackets.ReplyReadsBack | crates/telio-dns/src/nameserver.rs:391-510 | every reply of at most 65535 bytes passes the server's own validation and reads back as the answer with addresses and ports exchanged |
| DnsPackets.QueryIsAnswered | crates/telio-dns/src/nameserver.rs:241-321 | the reply to any accepted query comes from port 53 of the queried address and goes to the asker |
| DnsPackets.LengthFieldsExact | crates/telio-dns/src/nameserver.rs:424-502 | total, payload and UDP length fields equal the real sizes if and only if those fit in 16 bits |
| DnsPackets.ReplySums | crates/telio-dns/src/nameserver.rs:347-360 | IPv4 header and UDP pseudo-header sums fold to 0xffff |
| DnsPackets.ZeroChecksumIff | crates/telio-dns/src/nameserver.rs:504-506 | the UDP checksum is sent as zero if and only if the rest sums to all ones |
| DnsPackets.ZeroChecksumReachable | crates/telio-dns/src/nameserver.rs:504-506 | every even-length answer has a two-byte continuation for which it is |
| Encryption.EncryptRequest | crates/telio-crypto/src/encryption.rs:40-79 | for every lawful cipher the addressee, whichever secret key that is, opens the result to message and sender's key, or to the forbidden key; it is 144 bytes longer than the message, and only a failed sealing yields none |
| Encryption.RequestRoundTrip | crates/telio-crypto/src/encryption.rs:81-132 | for every lawful cipher, the addressee gets message and sender's key if allowed and the forbidden key otherwise; the wire form is 144 bytes longer |
| Encryption.EncryptResponse | crates/telio-crypto/src/encryption.rs:137-153 | likewise the addressee opens the result to the message; it is 40 bytes longer |
| Encryption.ResponseRoundTrip | crates/telio-crypto/src/encryption.rs:155-175 | a response opens to its message |
| LogFilter.Logger.FilterLogMessage | src/ffi/logging.rs:225-251 | the line let through and the new status for every message |
| LogFilter.RunEmits | src/ffi/logging.rs:233-250 | after any history, a new message with r repeats emits 1 + min(r,10) + floor((r-1)/100) lines |
| LogFilter.Logger.CountDropped | src/ffi/logging.rs:191-201 | a line that could not be sent counts once |
| LogFilter.Logger.DroppedSinceLastChecked | src/ffi/logging.rs:81-85 | returns what was dropped since the last check and remembers the total |
| LogFilter.ReadingsAddUp | src/ffi/logging.rs:75-85 | for one sequential caller the readings add up to the lines dropped by the last check, right after one to all of them |

## Left out

- Async runtime, channels, sockets and task teardown: each call or event is one atomic step that reads the interface once
  and happens at one instant.
- Failures inside a pass other than a refused `add_peer`: a session keeper, cross ping check or adapter task that fails while
  the peers are being consolidated is not modelled; failures before and after the peers are.
- Analytics reports, muting of proxy peers, pausing of endpoint providers and STUN triggers: they feed nothing modelled here.
- Consolidated: private key, firewall mark, endpoint invalidation and firewall appear in a device turn only as possible
  failures; invalidation and firewall are treated in their own modules.
- Upgrade sessions: whether a received request's session is known to the receiver, and the decision messages sent back, are
  not modelled. Apart from the tie-break between concurrent requests a node may accept any message that was sent to it, so
  the two-controller result covers every run the code has and more.
- CompleteRoutesDisjointIff: assumes that the keys of the virtual peers differ from each other's and from all others, as an
  entry under a shared key would replace another.
- RunsAreSafe: the clause on the exit node assumes its key is not that of a virtual peer, whose entry would replace it; the
  two-controller result assumes the same of the other side's key.
- StepTunnelSafe: likewise.
- PlainExitIff: likewise.
- NothingUnsetIff: likewise, for all virtual peers.
- UnmovedTickSilentIff: likewise, for all virtual peers.
- PlainNextIff: likewise, for the exit node.
- MovesBounded: the cross ping check is one candidate per peer, gone once reported as failed; its retries count as news.
- FilterLogMessage: the message counter is required to stay below 2^32, where the source would overflow.
- Connectivity timeout: three keepalive periods are multiplied modulo 2^32, as in a release build.
- Query: parsing of the DNS message inside the datagram, and the TCP reset branch, are not modelled.
- DnsNames: names are byte strings; the syntax check of the DNS name parser, its ignoring of case and
  the records' time to live are not modelled.
- Zones.FindNearest: the search itself belongs to the DNS library; the model is its nearest-ancestor rule.
- Cryptography: the cipher is any one satisfying symmetric key agreement, opening what was sealed, and a 16-byte tag.
- The firewall's packet filter, and removal of its VPN entry on disconnection.
- Conversion of WireGuard peers to published nodes, telemetry, NAT detection, foreign-language bindings, command-line tools.
