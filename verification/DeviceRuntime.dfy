/**
 The device runtime: the API calls and events that change the requested state, each followed by a consolidation.
 Calls into other entities that may fail are inputs; a failure leaves the state as the call had it at that point.
 */
module DeviceRuntime {
  import opened Basics
  import opened Peers
  import opened WireGuard
  import opened Consolidation
  import opened Convergence
  import opened Deadlocks
  import opened Requested
  import opened Cycle
  import opened SessionKeeping

  const REJECT_AFTER_TIME: nat := 180 * SECOND

  /** The post-quantum entity's peer; `keys` is set by its handshake. */
  datatype PqPeer = PqPeer(
    pubkey: PublicKey, addr: SocketAddr, keys: Option<PqKeys>, lastHandshake: Option<Instant>)

  datatype PqEvent =
    | Connecting(key: PublicKey)
    | Disconnected(key: PublicKey)
    | Handshake(addr: SocketAddr, keys: PqKeys)
    | Rekey(keys: PqKeys)

  datatype State = State(
    config: Option<Config>,
    oldConfig: Option<Config>,
    exitNode: Option<ExitNode>,
    lastExitNode: Option<ExitNode>,
    dnsEnabled: bool,
    dns: Option<(PublicKey, nat)>,
    stunServer: Option<StunServer>,
    pq: Option<PqPeer>,
    meshRunning: bool,
    world: World)

  /** Fixed for the life of the device. */
  datatype Settings = Settings(features: Features, keepalives: Keepalives, sessionKeeper: bool, direct: bool)

  /** What one consolidation meets: its observations, and whether some other call fails before or after the peers. */
  datatype Env = Env(
    sensors: Sensors, starcast: Option<(PublicKey, nat)>, stunActive: bool, failsBefore: bool, failsAfter: bool)

  function WantedOf(c: Settings, s: State): Wanted {
    Wanted(s.config, s.exitNode, s.dnsEnabled, s.stunServer, c.keepalives)
  }

  /** The virtual peers of the meshnet entities exist only while those run. */
  function HelpersOf(s: State, env: Env): Helpers {
    Helpers(s.pq.Some?, if s.pq.Some? then s.pq.value.keys else None, s.dns,
            if s.meshRunning then env.starcast else None, s.meshRunning && env.stunActive)
  }

  ghost function PassFor(c: Settings, s: State, env: Env): Pass {
    Pass(s.world.peers, RequestedPeers(WantedOf(c, s), env.sensors, c.features, HelpersOf(s, env), s.world.peers),
         env.sensors.now, env.sensors.proxies, c.features.batching, c.features.ipv6, s.meshRunning && c.direct,
         c.keepalives.direct)
  }

  /** A tunnel whose last handshake WireGuard has given up on makes the key exchange start over. */
  function MaybeRestartPq(pq: Option<PqPeer>, ifc: Interface, now: Instant): Option<PqPeer> {
    if pq.Some? && pq.value.pubkey in ifc && ifc[pq.value.pubkey].sinceHandshake.None?
       && pq.value.lastHandshake.Some? && Elapsed(now, pq.value.lastHandshake.value) > REJECT_AFTER_TIME
    then Some(pq.value.(keys := None, lastHandshake := None))
    else pq
  }

  /** The peers part of a consolidation, under some order of its operations. */
  ghost predicate PeersConsolidated(p: Pass, w: World, w': World, ok: bool) {
    if DisjointRoutes(p.requested)
    then exists ops :: ValidSchedule(p, ops) && Run(p, w, ops) == if ok then Done(w') else Failed(w')
    else !ok && w' == w
  }

  ghost predicate Consolidated(c: Settings, s: State, env: Env, s': State, ok: bool) {
    var s1 := s.(pq := MaybeRestartPq(s.pq, s.world.peers, env.sensors.now));
    if env.failsBefore then s' == s1 && !ok
    else exists applied ::
           && PeersConsolidated(PassFor(c, s1, env), s1.world, s'.world, applied)
           && s' == s1.(world := s'.world)
           && ok == (applied && !env.failsAfter)
  }

  // ---- API calls and events ----

  predicate ConfigHas(config: Option<Config>, k: PublicKey) {
    config.Some? && config.value.peers.Some? && exists q :: q in config.value.peers.value && q.publicKey == k
  }

  /** How far starting or reconfiguring the meshnet entities gets. */
  datatype MeshStart = Started | NotReached | Lost

  /** Other things that can go wrong in a call. */
  datatype Faults = Faults(badKey: bool, noInterface: bool, mesh: MeshStart, dns: bool, reset: bool)

  /** Where a call stands right before it consolidates, or what it returns without consolidating. */
  datatype Plan = Go(state: State) | Stop(state: State, ok: bool)

  function PlanSetConfig(c: Settings, s: State, config: Option<Config>, x: Faults): Plan {
    if (s.pq.Some? && config.Some?) || (config.Some? && x.badKey) then Stop(s, false)
    else
      var s1 := s.(oldConfig := s.config, config := config);
      if x.noInterface then Stop(s1, false)
      else if config.Some? then StartMesh(c, s1, x)
      else
        var s2 := s1.(meshRunning := false, stunServer := None, world := s1.world.(tracked := None));
        if x.dns then Stop(s2, false) else Go(ForgetMeshExit(s2))
  }

  /** Entities already running are reconfigured; new ones come with an empty session keeper; a failure loses them. */
  function StartMesh(c: Settings, s: State, x: Faults): Plan {
    match x.mesh
    case NotReached => Stop(s, false)
    case Lost => Stop(s.(meshRunning := false, world := s.world.(tracked := None)), false)
    case Started =>
      var keeper := if c.sessionKeeper then Some(map[]) else None;
      var s1 := if s.meshRunning then s else s.(meshRunning := true, world := s.world.(tracked := keeper));
      if x.dns then Stop(s1, false) else Go(s1)
  }

  /** With the meshnet off, an exit node that was one of its peers must not be taken for a VPN server. */
  function ForgetMeshExit(s: State): State {
    if s.exitNode.Some? && ConfigHas(s.oldConfig, s.exitNode.value.publicKey) then s.(exitNode := None) else s
  }

  function PlanConnect(s: State, node: ExitNode, postquantum: bool, x: Faults): Plan {
    var s1 := s.(pq := None);
    if postquantum && s.config.Some? then Stop(s, false)
    else if postquantum && node.endpoint.None? then Stop(s1, false)
    else if ConfigHas(s.config, node.publicKey) && s.dns.Some? && x.dns then Stop(s1, false)
    else if !ConfigHas(s.config, node.publicKey) && node.endpoint.None? then Stop(s1, false)
    else
      var pq := if postquantum then Some(PqPeer(node.publicKey, node.endpoint.value, None, None)) else None;
      Go(s1.(pq := pq, exitNode := Some(node)))
  }

  function PlanDisconnectAll(s: State, x: Faults): Plan {
    if s.exitNode.None? then Stop(s.(pq := None), true)
    else
      var s1 := s.(exitNode := None, lastExitNode := s.exitNode);
      if s.dns.Some? && s.dnsEnabled && x.dns then Stop(s1, false) else Go(s1)
  }

  function PlanDisconnect(s: State, key: PublicKey, x: Faults): Plan {
    if s.exitNode.Some? && s.exitNode.value.publicKey == key then PlanDisconnectAll(s, x) else Stop(s, false)
  }

  function OnPqEvent(pq: Option<PqPeer>, e: PqEvent, now: Instant): Option<PqPeer> {
    if pq.None? then None
    else match e
      case Handshake(addr, keys) =>
        if pq.value.addr == addr then Some(pq.value.(keys := Some(keys), lastHandshake := Some(now))) else pq
      case Rekey(keys) =>
        if pq.value.keys.Some? && pq.value.keys.value.wgSecret == keys.wgSecret
        then Some(pq.value.(keys := Some(pq.value.keys.value.(shared := keys.shared))))
        else pq
      case _ => pq
  }

  function PlanStartDns(s: State, resolver: (PublicKey, nat), x: Faults): Plan {
    if x.noInterface then Stop(s.(dnsEnabled := true), false)
    else
      var s1 := s.(dnsEnabled := true, dns := if s.dns.Some? then s.dns else Some(resolver));
      if x.dns then Stop(s1, false) else Go(s1)
  }

  datatype ApiCall =
    | SetConfigCall(config: Option<Config>)
    | ConnectCall(node: ExitNode)
    | ConnectPqCall(node: ExitNode)
    | DisconnectCall(key: PublicKey)
    | DisconnectAllCall
    | TickEvent
    | PqEventCall(event: PqEvent)
    | StunEvent(server: Option<StunServer>)
    | StartDnsCall(resolver: (PublicKey, nat))
    | StopDnsCall

  function Prepare(c: Settings, s: State, call: ApiCall, x: Faults, now: Instant): Plan {
    match call
    case SetConfigCall(config) => PlanSetConfig(c, s, config, x)
    case ConnectCall(node) => PlanConnect(s, node, false, x)
    case ConnectPqCall(node) => PlanConnect(s, node, true, x)
    case DisconnectCall(key) => PlanDisconnect(s, key, x)
    case DisconnectAllCall => PlanDisconnectAll(s, x)
    case TickEvent => Go(s)
    case PqEventCall(e) => Go(s.(pq := OnPqEvent(s.pq, e, now)))
    case StunEvent(server) => Go(s.(stunServer := server))
    case StartDnsCall(resolver) => PlanStartDns(s, resolver, x)
    case StopDnsCall => Go(s.(dnsEnabled := false, dns := None))
  }

  /** Connecting ends with resetting the connections of the exit node used before, which may fail. */
  predicate Succeeds(s: State, call: ApiCall, x: Faults, consolidated: bool) {
    consolidated &&
    ((call.ConnectCall? || call.ConnectPqCall?) && (s.exitNode.Some? || s.lastExitNode.Some?) ==> !x.reset)
  }

  /** A failed post-quantum connection stops the key exchange, and so does a completed disconnection. */
  function Settle(call: ApiCall, s: State, ok: bool): State {
    if (call.ConnectPqCall? && !ok) || ((call.DisconnectCall? || call.DisconnectAllCall?) && ok)
    then s.(pq := None) else s
  }

  lemma SettleKeeps(call: ApiCall, s: State, ok: bool)
    ensures Settle(call, s, ok) == s.(pq := Settle(call, s, ok).pq)
    ensures Settle(call, s, ok).world == s.world && Settle(call, s, ok).exitNode == s.exitNode
    ensures Settle(call, s, ok).pq.Some? ==> Settle(call, s, ok) == s
  {
  }

  ghost predicate CallStep(c: Settings, s: State, call: ApiCall, x: Faults, env: Env, s': State, ok: bool) {
    match Prepare(c, s, call, x, env.sensors.now)
    case Stop(end, result) => s' == end && ok == result
    case Go(s1) =>
      exists s2, done ::
        && Consolidated(c, s1, env, s2, done)
        && ok == Succeeds(s, call, x, done)
        && s' == Settle(call, s2, ok)
  }

  lemma CallStepIntro(
      c: Settings, s: State, call: ApiCall, x: Faults, env: Env, s1: State, s2: State, done: bool, s': State, ok: bool)
    requires Prepare(c, s, call, x, env.sensors.now) == Go(s1) && Consolidated(c, s1, env, s2, done)
    requires ok == Succeeds(s, call, x, done) && s' == Settle(call, s2, ok)
    ensures CallStep(c, s, call, x, env, s', ok)
  {
  }

  /** Disconnecting the connected exit node is disconnecting everything. */
  lemma DisconnectIsDisconnectAll(c: Settings, s: State, key: PublicKey, x: Faults, env: Env, s': State, ok: bool)
    requires s.exitNode.Some? && s.exitNode.value.publicKey == key
    requires CallStep(c, s, DisconnectAllCall, x, env, s', ok)
    ensures CallStep(c, s, DisconnectCall(key), x, env, s', ok)
  {
    var plan := Prepare(c, s, DisconnectAllCall, x, env.sensors.now);
    if plan.Go? {
      var s2, done :| Consolidated(c, plan.state, env, s2, done) && ok == Succeeds(s, DisconnectAllCall, x, done)
                      && s' == Settle(DisconnectAllCall, s2, ok);
      CallStepIntro(c, s, DisconnectCall(key), x, env, plan.state, s2, done, s', ok);
    }
  }

  // ---- Post-quantum safety ----

  /** Meshnet and post-quantum never coexist, and the key exchange is with the requested exit node. */
  ghost predicate Exclusive(s: State) {
    && (s.config.Some? ==> s.pq.None?)
    && (s.pq.Some? && s.exitNode.Some? ==> s.exitNode.value.publicKey == s.pq.value.pubkey)
  }

  lemma ConsolidatedKeeps(c: Settings, s: State, env: Env, s': State, ok: bool)
    requires Consolidated(c, s, env, s', ok)
    ensures s' == s.(pq := s'.pq, world := s'.world)
    ensures s'.pq.Some? <==> s.pq.Some?
    ensures s.pq.Some? ==> s'.pq.value.pubkey == s.pq.value.pubkey
  {
  }

  /** What every call prepares keeps the exclusion, whether or not it goes on to consolidate. */
  lemma PrepareExclusive(c: Settings, s: State, call: ApiCall, x: Faults, now: Instant)
    requires Exclusive(s)
    ensures Exclusive(Prepare(c, s, call, x, now).state)
    ensures Prepare(c, s, call, x, now).state.world.peers == s.world.peers
  {
  }

  lemma StepExclusive(c: Settings, s: State, call: ApiCall, x: Faults, env: Env, s': State, ok: bool)
    requires Exclusive(s) && CallStep(c, s, call, x, env, s', ok)
    ensures Exclusive(s')
  {
    hide Consolidated, Prepare;
    PrepareExclusive(c, s, call, x, env.sensors.now);
    var plan := Prepare(c, s, call, x, env.sensors.now);
    if plan.Go? {
      var s2, done :| Consolidated(c, plan.state, env, s2, done) && s' == Settle(call, s2, ok);
      ConsolidatedKeeps(c, plan.state, env, s2, done);
      SettleKeeps(call, s2, ok);
    }
  }

  /** The exit node is off the interface, or its tunnel carries the key the post-quantum exchange agreed on. */
  ghost predicate TunnelSafe(s: State) {
    s.pq.Some? && s.exitNode.Some? ==>
      var k := s.exitNode.value.publicKey;
      || k !in s.world.peers
      || (s.pq.value.keys.Some? && s.world.peers[k].presharedKey == Some(s.pq.value.keys.value.shared))
  }

  /** No virtual peer shares its key with the exit node. */
  ghost predicate ExitKeyUnshared(c: Settings, s: State, env: Env) {
    s.exitNode.Some? ==> !IsHelperKey(WantedOf(c, s), HelpersOf(s, env), s.exitNode.value.publicKey)
  }

  /** Without a meshnet configuration, the exit node is requested as the post-quantum state says. */
  lemma ExitRequest(c: Settings, s: State, env: Env)
    requires s.config.None? && s.exitNode.Some? && ExitKeyUnshared(c, s, env)
    ensures var k, req := s.exitNode.value.publicKey, PassFor(c, s, env).requested;
            && (k in req <==> s.pq.Some? ==> s.pq.value.keys.Some?)
            && (k in req ==> req[k].peer.presharedKey ==
                             if s.pq.Some? then Some(s.pq.value.keys.value.shared) else None)
  {
    var w, h := WantedOf(c, s), HelpersOf(s, env);
    var mesh := MeshPeers(w, env.sensors, c.features, s.world.peers);
    assert mesh == map[];
    HelpersKeep(WithExit(mesh, w, c.features, h), w, c.features, h, ExitPromoted(mesh, w), s.exitNode.value.publicKey);
  }

  lemma ConvergedPsk(p: Pass, k: PublicKey)
    requires k in p.requested
    ensures Converged(p)[k].presharedKey == p.requested[k].peer.presharedKey
  {
  }

  lemma AppliedConverges(c: Settings, s: State, env: Env, s': State)
    requires Consolidated(c, s, env, s', true) && WellKeyed(s.world.peers)
    ensures s'.world.peers == Converged(PassFor(c, s.(pq := s'.pq), env))
  {
    var s1 := s.(pq := MaybeRestartPq(s.pq, s.world.peers, env.sensors.now));
    var p := PassFor(c, s1, env);
    var ops :| ValidSchedule(p, ops) && Run(p, s1.world, ops) == Done(s'.world);
    RequestWellKeyed(WantedOf(c, s1), env.sensors, c.features, HelpersOf(s1, env), s1.world.peers);
    PassConverges(p, s1.world, ops);
  }

  lemma ConsolidatedTunnelSafe(c: Settings, s: State, env: Env, s': State)
    requires Exclusive(s) && WellKeyed(s.world.peers) && Consolidated(c, s, env, s', true)
    requires ExitKeyUnshared(c, s, env)
    ensures TunnelSafe(s')
  {
    ConsolidatedTunnel(c, s, env, s', true);
  }

  /** The pass of a consolidation was not carried out to its end. */
  ghost predicate CutShort(c: Settings, s: State, env: Env, w': World) {
    var s1 := s.(pq := MaybeRestartPq(s.pq, s.world.peers, env.sensors.now));
    env.failsBefore || PeersConsolidated(PassFor(c, s1, env), s1.world, w', false)
  }

  /** The record of the exit node on the interface is the one from before. */
  ghost predicate ExitUntouched(s: State, s': State) {
    s'.exitNode.Some? ==>
      Lookup(s'.world.peers, s'.exitNode.value.publicKey) == Lookup(s.world.peers, s'.exitNode.value.publicKey)
  }

  /** A record after a pass, wherever that stopped: gone, written as requested or, if it was cut short, as before. */
  lemma PskAfter(p: Pass, w: World, w': World, ok: bool, k: PublicKey, psk: Option<PresharedKey>)
    requires w.peers == p.actual && WellKeyed(p.actual) && WellKeyedRequest(p.requested)
    requires PeersConsolidated(p, w, w', ok)
    requires k in p.requested ==> p.requested[k].peer.presharedKey == psk
    ensures ok && k in w'.peers ==> k in p.requested && w'.peers[k].presharedKey == psk
    ensures k in w'.peers && (k !in p.requested || w'.peers[k].presharedKey != psk) ==>
              Lookup(w'.peers, k) == Lookup(w.peers, k)
  {
    hide Run, RequestedPeers;
    if DisjointRoutes(p.requested) {
      var ops :| ValidSchedule(p, ops) && Run(p, w, ops) == if ok then Done(w') else Failed(w');
      var done := StateOfRun(p, w, ops);
      if ok {
        AllDone(p);
        if k in p.requested {
          ConvergedPsk(p, k);
        }
      }
    }
  }

  lemma ConsolidatedTunnel(c: Settings, s: State, env: Env, s': State, ok: bool)
    requires Exclusive(s) && WellKeyed(s.world.peers) && Consolidated(c, s, env, s', ok)
    requires ExitKeyUnshared(c, s, env)
    ensures TunnelSafe(s') || (!ok && CutShort(c, s, env, s'.world) && ExitUntouched(s, s'))
  {
    hide RequestedPeers, PeersConsolidated;
    ConsolidatedKeeps(c, s, env, s', ok);
    if s'.pq.Some? && s'.exitNode.Some? && !env.failsBefore {
      var s1 := s.(pq := s'.pq);
      var p, k := PassFor(c, s1, env), s'.exitNode.value.publicKey;
      RequestWellKeyed(WantedOf(c, s1), env.sensors, c.features, HelpersOf(s1, env), s1.world.peers);
      ExitRequest(c, s1, env);
      var applied :| PeersConsolidated(p, s1.world, s'.world, applied) && ok == (applied && !env.failsAfter);
      var psk := if s'.pq.value.keys.Some? then Some(s'.pq.value.keys.value.shared) else None;
      PskAfter(p, s1.world, s'.world, applied, k, psk);
    }
  }

  /** Routes never overlap and nothing is kept alive that is not on the interface. */
  ghost predicate Sound(w: World) {
    ValidInterface(w.peers) && Contained(w)
  }

  lemma PeersStaySound(p: Pass, w: World, w': World, ok: bool)
    requires w.peers == p.actual && Sound(w) && WellKeyedRequest(p.requested)
    requires PeersConsolidated(p, w, w', ok)
    ensures Sound(w')
  {
    if DisjointRoutes(p.requested) {
      var ops :| ValidSchedule(p, ops) && Run(p, w, ops) == if ok then Done(w') else Failed(w');
      RunKeepsValid(p, w, ops);
      RunContained(p, w, ops);
    }
  }

  lemma ConsolidatedSound(c: Settings, s: State, env: Env, s': State, ok: bool)
    requires Sound(s.world) && Consolidated(c, s, env, s', ok)
    ensures Sound(s'.world)
  {
    hide RequestedPeers, Sound;
    if !env.failsBefore {
      var s1 := s.(pq := MaybeRestartPq(s.pq, s.world.peers, env.sensors.now));
      var p := PassFor(c, s1, env);
      RequestWellKeyed(WantedOf(c, s1), env.sensors, c.features, HelpersOf(s1, env), s1.world.peers);
      var applied :| PeersConsolidated(p, s1.world, s'.world, applied);
      PeersStaySound(p, s1.world, s'.world, applied);
    }
  }

  /** Preparing a call never touches the interface, and changes the session keeper only by emptying or stopping it. */
  lemma PrepareSound(c: Settings, s: State, call: ApiCall, x: Faults, now: Instant)
    requires Sound(s.world)
    ensures Sound(Prepare(c, s, call, x, now).state.world)
  {
    hide ValidInterface;
  }

  lemma StepSound(c: Settings, s: State, call: ApiCall, x: Faults, env: Env, s': State, ok: bool)
    requires Sound(s.world) && CallStep(c, s, call, x, env, s', ok)
    ensures Sound(s'.world)
  {
    hide Sound, Consolidated, Prepare;
    PrepareSound(c, s, call, x, env.sensors.now);
    var plan := Prepare(c, s, call, x, env.sensors.now);
    if plan.Go? {
      var s2, done :| Consolidated(c, plan.state, env, s2, done) && s' == Settle(call, s2, ok);
      ConsolidatedSound(c, plan.state, env, s2, done);
      SettleKeeps(call, s2, ok);
      assert s'.world == s2.world;
    }
  }

  /** A step that stops without consolidating reports success only when it also stopped the key exchange. */
  lemma StopWithoutPq(c: Settings, s: State, call: ApiCall, x: Faults, now: Instant)
    requires Prepare(c, s, call, x, now).Stop? && Prepare(c, s, call, x, now).ok
    ensures Prepare(c, s, call, x, now).state.pq.None?
  {
  }

  /** The turn failed, with its pass not reached or not completed and the exit node's record as the turn found it. */
  ghost predicate Interrupted(c: Settings, s: State, call: ApiCall, x: Faults, env: Env, s': State, ok: bool) {
    && !ok && ExitUntouched(s, s')
    && match Prepare(c, s, call, x, env.sensors.now)
       case Stop(_, _) => true
       case Go(s1) => CutShort(c, s1, env, s'.world)
  }

  /**
   After every turn, successful or not, the tunnel is safe, unless the turn failed before its pass was completed and
   left the exit node's record alone.
   */
  lemma StepTunnelSafe(c: Settings, s: State, call: ApiCall, x: Faults, env: Env, s': State, ok: bool)
    requires Exclusive(s) && Sound(s.world) && CallStep(c, s, call, x, env, s', ok)
    requires ExitKeyUnshared(c, s', env)
    ensures TunnelSafe(s') || Interrupted(c, s, call, x, env, s', ok)
  {
    hide Consolidated, Prepare, CutShort;
    PrepareExclusive(c, s, call, x, env.sensors.now);
    var plan := Prepare(c, s, call, x, env.sensors.now);
    if plan.Stop? {
      if ok {
        StopWithoutPq(c, s, call, x, env.sensors.now);
      }
    } else {
      var s2, done :| && Consolidated(c, plan.state, env, s2, done) && ok == Succeeds(s, call, x, done)
                      && s' == Settle(call, s2, ok);
      ConsolidatedKeeps(c, plan.state, env, s2, done);
      SettleKeeps(call, s2, ok);
      if s'.pq.Some? {
        ConsolidatedTunnel(c, plan.state, env, s2, done);
      }
    }
  }

  /** One call or event of a run, with the state it found and the state it left. */
  datatype Turn = Turn(before: State, call: ApiCall, faults: Faults, env: Env, after: State, ok: bool)

  /** Between turns the interface is only read: traffic and roaming change neither its peers nor their settings. */
  ghost predicate Synced(s: State, s': State) {
    && s' == s.(world := s.world.(peers := s'.world.peers))
    && s'.world.peers.Keys == s.world.peers.Keys
    && forall k :: k in s.world.peers ==> SameSettings(s.world.peers[k], s'.world.peers[k])
  }

  predicate SameSettings(a: Peer, b: Peer) {
    && a.publicKey == b.publicKey && a.allowedIps == b.allowedIps
    && a.keepalive == b.keepalive && a.presharedKey == b.presharedKey
  }

  lemma SyncedSound(s: State, s': State)
    requires Sound(s.world) && Synced(s, s')
    ensures Sound(s'.world)
  {
  }

  ghost predicate DeviceRun(c: Settings, run: seq<Turn>) {
    && (forall i :: 0 <= i < |run| ==>
                      CallStep(c, run[i].before, run[i].call, run[i].faults, run[i].env, run[i].after, run[i].ok))
    && (forall i :: 0 <= i < |run| - 1 ==> Synced(run[i].after, run[i + 1].before))
    && (run != [] ==>
          run[0].before.config.None? && run[0].before.pq.None? && run[0].before.world == World(map[], None, [], []))
  }

  /**
   In every run of API calls and events, with any of the calls failing half way: a meshnet configuration and the
   post-quantum task never coexist; no network is ever routed to two peers, and the session keeper tracks only
   interface peers; and after every turn with key rotation running, the exit node is off the interface or tunnelled with
   the agreed post-quantum key, unless the turn failed before completing its pass and left the exit node's record alone.
   */
  lemma {:induction false} RunsAreSafe(c: Settings, run: seq<Turn>, n: nat)
    requires DeviceRun(c, run) && n < |run|
    ensures Exclusive(run[n].before) && Exclusive(run[n].after)
    ensures Sound(run[n].before.world) && Sound(run[n].after.world)
    ensures ExitKeyUnshared(c, run[n].after, run[n].env) ==>
              || TunnelSafe(run[n].after)
              || Interrupted(c, run[n].before, run[n].call, run[n].faults, run[n].env, run[n].after, run[n].ok)
  {
    hide CallStep, TunnelSafe, ExitKeyUnshared, Interrupted;
    var t := run[n];
    if n > 0 {
      RunsAreSafe(c, run, n - 1);
      SyncedSound(run[n - 1].after, t.before);
    }
    StepExclusive(c, t.before, t.call, t.faults, t.env, t.after, t.ok);
    StepSound(c, t.before, t.call, t.faults, t.env, t.after, t.ok);
    if ExitKeyUnshared(c, t.after, t.env) {
      StepTunnelSafe(c, t.before, t.call, t.faults, t.env, t.after, t.ok);
    }
  }

  // ---- Connecting with post-quantum protection ----

  /** The pass of the call, which awaits the keys and so leaves the exit node out. */
  ghost function ConnectPass(c: Settings, s: State, node: ExitNode, x: Faults, env: Env): Pass {
    PassFor(c, PlanConnect(s, node, true, x).state, env)
  }

  /**
   Something goes wrong after the call's own checks: another part of the consolidation fails before or after the peers,
   the peers are refused, or resetting the connections of an earlier exit node fails.
   */
  ghost predicate ConnectBreaks(c: Settings, s: State, node: ExitNode, x: Faults, env: Env, ops: seq<Op>) {
    || env.failsBefore || env.failsAfter
    || (x.reset && (s.exitNode.Some? || s.lastExitNode.Some?))
    || var p := ConnectPass(c, s, node, x, env);
       !DisjointRoutes(p.requested) || (ValidSchedule(p, ops) && Run(p, s.world, ops).Failed?)
  }

  /** The order a connecting call walked its peers in, if it came that far. */
  ghost predicate ConnectOrder(c: Settings, s: State, node: ExitNode, x: Faults, env: Env, ops: seq<Op>, s1: State) {
    var p := ConnectPass(c, s, node, x, env);
    !env.failsBefore && DisjointRoutes(p.requested) ==> ValidSchedule(p, ops) && s1.world == Run(p, s.world, ops).world
  }

  /**
   The call fails exactly when the meshnet is on, the node has no endpoint, or something breaks. Under a meshnet nothing
   changes; otherwise key rotation for an earlier node is stopped in any case, and without an endpoint that earlier node
   stays the requested one.
   */
  lemma ConnectFailsIff(c: Settings, s: State, node: ExitNode, x: Faults, env: Env, s1: State, ok: bool)
    returns (ops: seq<Op>)
    requires CallStep(c, s, ConnectPqCall(node), x, env, s1, ok)
    ensures !ok <==> s.config.Some? || node.endpoint.None? || ConnectBreaks(c, s, node, x, env, ops)
    ensures s.config.Some? ==> s1 == s
    ensures s.config.None? ==>
              && s1.config.None? && s1.exitNode == (if node.endpoint.None? then s.exitNode else Some(node))
              && (s1.pq.Some? <==> ok) && (ok ==> s1.pq.value.pubkey == node.publicKey)
    ensures s.config.None? && node.endpoint.Some? ==> ConnectOrder(c, s, node, x, env, ops, s1)
  {
    hide RequestedPeers, Run, PassOps;
    ops := [];
    if s.config.None? && node.endpoint.Some? {
      ops := ConnectOutcome(c, s, node, x, env, s1, ok);
    }
  }

  lemma ConnectOutcome(c: Settings, s: State, node: ExitNode, x: Faults, env: Env, s1: State, ok: bool)
    returns (ops: seq<Op>)
    requires s.config.None? && node.endpoint.Some?
    requires CallStep(c, s, ConnectPqCall(node), x, env, s1, ok)
    ensures ConnectOrder(c, s, node, x, env, ops, s1)
    ensures !ok <==> ConnectBreaks(c, s, node, x, env, ops)
    ensures s1.exitNode == Some(node) && s1.config.None?
    ensures if ok then s1.pq.Some? && s1.pq.value.pubkey == node.publicKey else s1.pq.None?
  {
    hide RequestedPeers, Run, PassOps;
    var go := PlanConnect(s, node, true, x).state;
    var p := ConnectPass(c, s, node, x, env);
    var mid, done :| && Consolidated(c, go, env, mid, done) && ok == Succeeds(s, ConnectPqCall(node), x, done)
                     && s1 == Settle(ConnectPqCall(node), mid, ok);
    assert MaybeRestartPq(go.pq, go.world.peers, env.sensors.now) == go.pq;
    assert go.(pq := go.pq) == go;
    ops := [];
    if !env.failsBefore {
      var applied :| PeersConsolidated(p, go.world, mid.world, applied) && done == (applied && !env.failsAfter);
      if DisjointRoutes(p.requested) {
        ops :| ValidSchedule(p, ops) && Run(p, go.world, ops) == if applied then Done(mid.world) else Failed(mid.world);
      }
    }
  }

  /** The exit node is tunnelled to without a preshared key. */
  ghost predicate PlainExit(s: State, k: PublicKey) {
    k in s.world.peers && s.world.peers[k].presharedKey == None
  }

  /** Without a meshnet, a successful consolidation tunnels plainly to the requested node exactly without rotation. */
  lemma PlainIffNoRotation(c: Settings, s: State, env: Env, s': State)
    requires Exclusive(s) && Sound(s.world) && s.config.None? && s.exitNode.Some?
    requires Consolidated(c, s, env, s', true) && ExitKeyUnshared(c, s, env)
    ensures PlainExit(s', s.exitNode.value.publicKey) <==> s.pq.None?
    ensures s.pq.Some? ==> s'.pq.Some? && TunnelSafe(s')
  {
    hide RequestedPeers;
    ConsolidatedKeeps(c, s, env, s', true);
    if s.pq.Some? {
      ConsolidatedTunnelSafe(c, s, env, s');
    } else {
      AppliedConverges(c, s, env, s');
      assert s.(pq := s'.pq) == s;
      ExitRequest(c, s, env);
      ConvergedPsk(PassFor(c, s, env), s.exitNode.value.publicKey);
    }
  }

  /** From a running key rotation, exactly these calls leave a node requested without one. */
  ghost predicate DropsRotation(call: ApiCall, ok: bool) {
    call.ConnectCall? || (call.ConnectPqCall? && !ok)
  }

  lemma RotationDroppedIff(c: Settings, s: State, call: ApiCall, x: Faults, env: Env, s1: State, ok: bool)
    requires Exclusive(s) && s.pq.Some? && s.exitNode.Some? && CallStep(c, s, call, x, env, s1, ok)
    ensures s1.config.None?
    ensures s1.exitNode.Some? && s1.pq.None? <==> DropsRotation(call, ok)
    ensures DropsRotation(call, ok) ==>
              s1.exitNode == if call.node.endpoint.None? then s.exitNode else Some(call.node)
    ensures DropsRotation(call, ok) && call.node.endpoint.None? ==> !ok
  {
    hide Consolidated;
    var plan := Prepare(c, s, call, x, env.sensors.now);
    if plan.Go? {
      var s2, done :| && Consolidated(c, plan.state, env, s2, done) && ok == Succeeds(s, call, x, done)
                      && s1 == Settle(call, s2, ok);
      ConsolidatedKeeps(c, plan.state, env, s2, done);
      SettleKeeps(call, s2, ok);
    }
  }

  /**
   While key rotation runs for the requested exit node, a call makes the next successful consolidation tunnel without a
   preshared key to the node then requested exactly in three cases: it asks for a plain connection to a node with an
   endpoint, which is what was wanted; it asks for a connection, plain or not, to a node without one, and is refused
   after rotation has stopped for the earlier node, which stays requested; or it asks for a protected one and something
   breaks.
   */
  lemma PlainNextIff(
      c: Settings, s: State, call: ApiCall, x: Faults, env: Env, s1: State, ok: bool, env': Env, s2: State)
    returns (ops: seq<Op>)
    requires Exclusive(s) && Sound(s.world) && s.pq.Some? && s.exitNode.Some?
    requires CallStep(c, s, call, x, env, s1, ok)
    requires Consolidated(c, s1, env', s2, true) && ExitKeyUnshared(c, s1, env')
    ensures s1.exitNode.Some? && PlainExit(s2, s1.exitNode.value.publicKey) <==>
            || (call.ConnectCall? && call.node.endpoint.Some?)
            || ((call.ConnectCall? || call.ConnectPqCall?) && call.node.endpoint.None?)
            || (call.ConnectPqCall? && ConnectBreaks(c, s, call.node, x, env, ops))
    ensures call.ConnectPqCall? && call.node.endpoint.Some? ==> ConnectOrder(c, s, call.node, x, env, ops, s1)
    ensures (call.ConnectCall? || call.ConnectPqCall?) && call.node.endpoint.None? ==> !ok && s1.exitNode == s.exitNode
    ensures s1.exitNode.Some? && !PlainExit(s2, s1.exitNode.value.publicKey) ==> s2.pq.Some? && TunnelSafe(s2)
  {
    hide CallStep, ConnectBreaks, ConnectOrder, RequestedPeers, Sound, PlainExit, TunnelSafe, Consolidated;
    ops := [];
    if call.ConnectPqCall? {
      ops := ConnectFailsIff(c, s, call.node, x, env, s1, ok);
    }
    RotationDroppedIff(c, s, call, x, env, s1, ok);
    StepExclusive(c, s, call, x, env, s1, ok);
    StepSound(c, s, call, x, env, s1, ok);
    if s1.exitNode.Some? {
      PlainIffNoRotation(c, s1, env', s2);
    }
  }

  /** The same for connecting with protection from any state without a meshnet, rotation running or not. */
  lemma PlainExitIff(
      c: Settings, s: State, node: ExitNode, x: Faults, env: Env, s1: State, ok: bool, env': Env, s2: State)
    returns (ops: seq<Op>)
    requires s.config.None? && Sound(s.world)
    requires CallStep(c, s, ConnectPqCall(node), x, env, s1, ok)
    requires Consolidated(c, s1, env', s2, true) && ExitKeyUnshared(c, s1, env')
    ensures node.endpoint.Some? ==> ConnectOrder(c, s, node, x, env, ops, s1)
    ensures s1.exitNode == if node.endpoint.None? then s.exitNode else Some(node)
    ensures s1.exitNode.Some? ==>
              (PlainExit(s2, s1.exitNode.value.publicKey) <==>
               node.endpoint.None? || ConnectBreaks(c, s, node, x, env, ops))
    ensures node.endpoint.Some? && !ConnectBreaks(c, s, node, x, env, ops) ==> s2.pq.Some? && TunnelSafe(s2)
  {
    hide CallStep, ConnectBreaks, ConnectOrder, RequestedPeers, Sound, PlainExit, TunnelSafe, Consolidated;
    ops := ConnectFailsIff(c, s, node, x, env, s1, ok);
    StepSound(c, s, ConnectPqCall(node), x, env, s1, ok);
    if s1.exitNode.Some? {
      PlainIffNoRotation(c, s1, env', s2);
    }
  }

  // ---- Such a failure ----

  const SAMPLE_SETTINGS: Settings :=
    Settings(Features(false, false), Keepalives(Some(25), 5, Some(25), None), false, false)

  function SampleEnv(failsAfter: bool): Env {
    Env(Sensors(0, map[], map[], map[], map[], map[], map[]), None, false, false, failsAfter)
  }

  const START: State := State(None, None, None, None, false, None, None, None, false, World(map[], None, [], []))

  const SAMPLE_NODE: ExitNode := ExitNode("vpn", 2, None, Some(SocketAddr(V4(1), 1)))

  const NO_FAULTS: Faults := Faults(false, false, Started, false, false)

  /** On an empty interface every pass for routes that do not overlap can be carried out. */
  lemma EmptyInterfacePass(p: Pass, w: World) returns (ops: seq<Op>)
    requires p.actual == w.peers == map[] && WellKeyedRequest(p.requested) && DisjointRoutes(p.requested)
    ensures ValidSchedule(p, ops) && Run(p, w, ops).Done?
  {
    hide Run;
    ops := PhasedEnumeration(PassOps(p));
    EveryOrderSucceedsIff(p, w);
  }

  lemma SampleRequest(s: State, env: Env)
    requires s.config.None? && s.dns.None? && !s.meshRunning && s.stunServer.None? && s.exitNode == Some(SAMPLE_NODE)
    ensures var req := PassFor(SAMPLE_SETTINGS, s, env).requested;
            && WellKeyedRequest(req) && DisjointRoutes(req) && ExitKeyUnshared(SAMPLE_SETTINGS, s, env)
            && (s.pq.Some? && s.pq.value.keys.None? ==> req.Keys == {})
  {
    var c := SAMPLE_SETTINGS;
    RequestWellKeyed(WantedOf(c, s), env.sensors, c.features, HelpersOf(s, env), s.world.peers);
    var req := PassFor(SAMPLE_SETTINGS, s, env).requested;
    assert req.Keys <= {2};
  }

  /** A fresh device, a consolidation that fails after its peers, and a good one: the tunnel has no preshared key. */
  lemma PlainExitHappens() returns (s1: State, s2: State)
    ensures CallStep(SAMPLE_SETTINGS, START, ConnectPqCall(SAMPLE_NODE), NO_FAULTS, SampleEnv(true), s1, false)
    ensures Consolidated(SAMPLE_SETTINGS, s1, SampleEnv(false), s2, true)
    ensures PlainExit(s2, 2)
  {
    hide RequestedPeers, Run, PassOps;
    var mid := SampleConnect(SampleEnv(true));
    s1 := mid.(pq := None);
    CallStepIntro(SAMPLE_SETTINGS, START, ConnectPqCall(SAMPLE_NODE), NO_FAULTS, SampleEnv(true),
                  PlanConnect(START, SAMPLE_NODE, true, NO_FAULTS).state, mid, false, s1, false);
    s2 := SampleConsolidates(s1);
  }

  const NO_ENDPOINT: ExitNode := ExitNode("peer", 3, None, None)

  /**
   A fresh device connects with protection; then a plain connection to a node without an endpoint is asked for and
   refused, and the next consolidation tunnels to the first node without a preshared key.
   */
  lemma RefusedConnectDropsRotation() returns (s1: State, s2: State, s3: State)
    ensures CallStep(SAMPLE_SETTINGS, START, ConnectPqCall(SAMPLE_NODE), NO_FAULTS, SampleEnv(false), s1, true)
    ensures s1.pq.Some? && s1.exitNode == Some(SAMPLE_NODE)
    ensures CallStep(SAMPLE_SETTINGS, s1, ConnectCall(NO_ENDPOINT), NO_FAULTS, SampleEnv(false), s2, false)
    ensures s2.pq.None? && s2.exitNode == Some(SAMPLE_NODE)
    ensures Consolidated(SAMPLE_SETTINGS, s2, SampleEnv(false), s3, true)
    ensures PlainExit(s3, 2)
  {
    hide RequestedPeers, Run, PassOps;
    var env := SampleEnv(false);
    s1 := SampleConnect(env);
    CallStepIntro(SAMPLE_SETTINGS, START, ConnectPqCall(SAMPLE_NODE), NO_FAULTS, env,
                  PlanConnect(START, SAMPLE_NODE, true, NO_FAULTS).state, s1, true, s1, true);
    s2 := s1.(pq := None);
    s3 := SampleConsolidates(s2);
  }

  /** The connecting call's own consolidation, on the empty interface: nothing to do until there are keys. */
  lemma SampleConnect(env: Env) returns (mid: State)
    requires !env.failsBefore
    ensures var go := PlanConnect(START, SAMPLE_NODE, true, NO_FAULTS).state;
            && Consolidated(SAMPLE_SETTINGS, go, env, mid, !env.failsAfter)
            && mid == go.(world := mid.world) && mid.world.peers == map[] && Sound(mid.world)
  {
    hide RequestedPeers, Run, PassOps;
    var go := PlanConnect(START, SAMPLE_NODE, true, NO_FAULTS).state;
    SampleRequest(go, env);
    var p := PassFor(SAMPLE_SETTINGS, go, env);
    var ops := EmptyInterfacePass(p, go.world);
    PassConverges(p, go.world, ops);
    mid := go.(world := Run(p, go.world, ops).world);
    AppliedIntro(SAMPLE_SETTINGS, go, env, mid, ops);
    ConsolidatedSound(SAMPLE_SETTINGS, go, env, mid, !env.failsAfter);
  }

  /** A consolidation with the node still requested and no rotation. */
  lemma SampleConsolidates(s: State) returns (s': State)
    requires s.config.None? && s.dns.None? && !s.meshRunning && s.stunServer.None? && s.exitNode == Some(SAMPLE_NODE)
    requires s.pq.None? && s.world.peers == map[] && Sound(s.world)
    ensures Consolidated(SAMPLE_SETTINGS, s, SampleEnv(false), s', true) && PlainExit(s', 2)
  {
    hide RequestedPeers, Run, PassOps;
    SampleRequest(s, SampleEnv(false));
    var p := PassFor(SAMPLE_SETTINGS, s, SampleEnv(false));
    var ops := EmptyInterfacePass(p, s.world);
    s' := s.(world := Run(p, s.world, ops).world);
    AppliedIntro(SAMPLE_SETTINGS, s, SampleEnv(false), s', ops);
    PlainIffNoRotation(SAMPLE_SETTINGS, s, SampleEnv(false), s');
  }

  lemma AppliedIntro(c: Settings, s: State, env: Env, s': State, ops: seq<Op>)
    requires !env.failsBefore && (s.pq.Some? ==> s.pq.value.lastHandshake.None?)
    requires var p := PassFor(c, s, env);
             && DisjointRoutes(p.requested) && ValidSchedule(p, ops) && Run(p, s.world, ops).Done?
             && s' == s.(world := Run(p, s.world, ops).world)
    ensures Consolidated(c, s, env, s', !env.failsAfter)
  {
    hide RequestedPeers, Run, PassOps;
    assert s.(pq := MaybeRestartPq(s.pq, s.world.peers, env.sensors.now)) == s;
    assert PeersConsolidated(PassFor(c, s, env), s.world, s'.world, true);
  }
}
