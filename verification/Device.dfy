/** The runtime object: the requested state it keeps, and its calls, each changing fields and then consolidating. */
module Device {
  import opened Basics
  import opened Peers
  import opened Consolidation
  import opened Requested
  import opened DeviceRuntime
  import C = Controller

  method ListKeys(keys: set<PublicKey>) returns (order: seq<PublicKey>)
    ensures Enumerates(order, keys)
  {
    order := [];
    var rest := keys;
    while rest != {}
      invariant rest <= keys && Enumerates(order, keys - rest)
      decreases rest
    {
      var k :| k in rest;
      ElementsAppend(order, k);
      order, rest := order + [k], rest - {k};
    }
  }

  class Runtime {
    const settings: Settings
    const controller: C.Controller
    var config: Option<Config>
    var oldConfig: Option<Config>
    var exitNode: Option<ExitNode>
    var lastExitNode: Option<ExitNode>
    var dnsEnabled: bool
    var dns: Option<(PublicKey, nat)>
    var stunServer: Option<StunServer>
    var pq: Option<PqPeer>
    var meshRunning: bool

    ghost function View(): State
      reads this, controller
    {
      State(config, oldConfig, exitNode, lastExitNode, dnsEnabled, dns, stunServer, pq, meshRunning, controller.View())
    }

    constructor (settings: Settings)
      ensures fresh(controller) && this.settings == settings
      ensures View() == State(None, None, None, None, false, None, None, None, false, World(map[], None, [], []))
    {
      this.settings := settings;
      controller := new C.Controller(None);
      config, oldConfig, exitNode, lastExitNode := None, None, None, None;
      dnsEnabled, dns, stunServer, pq, meshRunning := false, None, None, None, false;
    }

    method Consolidate(env: Env) returns (ok: bool)
      modifies this`pq, controller
      ensures Consolidated(settings, old(View()), env, View(), ok)
    {
      hide RequestedPeers, Run, ValidSchedule, DisjointRoutes;
      pq := MaybeRestartPq(pq, controller.peers, env.sensors.now);
      if env.failsBefore {
        return false;
      }
      ghost var s1 := View();
      var helpers := Helpers(pq.Some?, if pq.Some? then pq.value.keys else None, dns,
                             if meshRunning then env.starcast else None, meshRunning && env.stunActive);
      var requested := BuildRequestedPeers(
        Wanted(config, exitNode, dnsEnabled, stunServer, settings.keepalives), env.sensors, settings.features, helpers,
        controller.peers);
      var pass := Pass(controller.peers, requested, env.sensors.now, env.sensors.proxies, settings.features.batching,
                       settings.features.ipv6, meshRunning && settings.direct, settings.keepalives.direct);
      var order := ListKeys(requested.Keys);
      var result, ops := controller.ConsolidatePeers(pass, order);
      assert pass == PassFor(settings, s1, env);
      ok := result == C.Applied && !env.failsAfter;
      assert PeersConsolidated(pass, s1.world, controller.View(), result == C.Applied);
    }

    method SetConfig(newConfig: Option<Config>, x: Faults, env: Env) returns (ok: bool)
      modifies this, controller
      ensures CallStep(settings, old(View()), SetConfigCall(newConfig), x, env, View(), ok)
    {
      hide Consolidated;
      var go := StoreConfig(newConfig, x);
      ok := false;
      if go {
        ghost var s1 := View();
        ok := Consolidate(env);
        CallStepIntro(settings, old(View()), SetConfigCall(newConfig), x, env, s1, View(), ok, View(), ok);
      }
    }

    method StoreConfig(newConfig: Option<Config>, x: Faults) returns (go: bool)
      modifies this, controller
      ensures PlanSetConfig(settings, old(View()), newConfig, x) == if go then Go(View()) else Stop(View(), false)
    {
      if pq.Some? && newConfig.Some? {
        return false;
      }
      if newConfig.Some? && x.badKey {
        return false;
      }
      oldConfig := config;
      config := newConfig;
      if x.noInterface {
        return false;
      }
      if newConfig.Some? {
        go := StartMeshnet(x);
      } else {
        go := StopMeshnet(x);
      }
    }

    method StartMeshnet(x: Faults) returns (go: bool)
      modifies this, controller
      ensures StartMesh(settings, old(View()), x) == if go then Go(View()) else Stop(View(), false)
    {
      if x.mesh == NotReached {
        return false;
      }
      if x.mesh == Lost {
        meshRunning, controller.tracked := false, None;
        return false;
      }
      if !meshRunning {
        meshRunning, controller.tracked := true, if settings.sessionKeeper then Some(map[]) else None;
      }
      go := !x.dns;
    }

    method StopMeshnet(x: Faults) returns (go: bool)
      modifies this, controller
      ensures var s := old(View()).(
                meshRunning := false, stunServer := None, world := old(View()).world.(tracked := None));
              if x.dns then !go && View() == s else go && View() == ForgetMeshExit(s)
    {
      meshRunning, controller.tracked := false, None;
      stunServer := None;
      if x.dns {
        return false;
      }
      if exitNode.Some? && ConfigHas(oldConfig, exitNode.value.publicKey) {
        exitNode := None;
      }
      go := true;
    }

    method ConnectExitNodePq(node: ExitNode, x: Faults, env: Env) returns (ok: bool)
      modifies this, controller
      ensures CallStep(settings, old(View()), ConnectPqCall(node), x, env, View(), ok)
    {
      hide Consolidated;
      if config.Some? {
        return false;
      }
      pq := None;
      if node.endpoint.None? {
        return false;
      }
      var reset := x.reset && (exitNode.Some? || lastExitNode.Some?);
      pq := Some(PqPeer(node.publicKey, node.endpoint.value, None, None));
      exitNode := Some(node);
      ghost var s1 := View();
      var done := Consolidate(env);
      ghost var s2 := View();
      ok := done && !reset;
      if !ok {
        pq := None;
      }
      CallStepIntro(settings, old(View()), ConnectPqCall(node), x, env, s1, s2, done, View(), ok);
    }

    method ConnectExitNode(node: ExitNode, x: Faults, env: Env) returns (ok: bool)
      modifies this, controller
      ensures CallStep(settings, old(View()), ConnectCall(node), x, env, View(), ok)
    {
      hide Consolidated;
      pq := None;
      if ConfigHas(config, node.publicKey) {
        if dns.Some? && x.dns {
          return false;
        }
      } else if node.endpoint.None? {
        return false;
      }
      var reset := x.reset && (exitNode.Some? || lastExitNode.Some?);
      exitNode := Some(node);
      ghost var s1 := View();
      var done := Consolidate(env);
      ok := done && !reset;
      CallStepIntro(settings, old(View()), ConnectCall(node), x, env, s1, View(), done, View(), ok);
    }

    method DisconnectExitNodes(x: Faults, env: Env) returns (ok: bool)
      modifies this, controller
      ensures CallStep(settings, old(View()), DisconnectAllCall, x, env, View(), ok)
    {
      hide Consolidated;
      if exitNode.Some? {
        lastExitNode := exitNode;
        exitNode := None;
        if dns.Some? && dnsEnabled && x.dns {
          return false;
        }
        ghost var s1 := View();
        ok := Consolidate(env);
        ghost var s2 := View();
        if ok {
          pq := None;
        }
        CallStepIntro(settings, old(View()), DisconnectAllCall, x, env, s1, s2, ok, View(), ok);
      } else {
        pq := None;
        ok := true;
      }
    }

    method DisconnectExitNode(key: PublicKey, x: Faults, env: Env) returns (ok: bool)
      modifies this, controller
      ensures CallStep(settings, old(View()), DisconnectCall(key), x, env, View(), ok)
    {
      hide Consolidated;
      if exitNode.Some? && exitNode.value.publicKey == key {
        ghost var before := View();
        ok := DisconnectExitNodes(x, env);
        DisconnectIsDisconnectAll(settings, before, key, x, env, View(), ok);
      } else {
        ok := false;
      }
    }

    method HandlePqEvent(event: PqEvent, x: Faults, env: Env) returns (ok: bool)
      modifies this, controller
      ensures CallStep(settings, old(View()), PqEventCall(event), x, env, View(), ok)
    {
      hide Consolidated;
      pq := OnPqEvent(pq, event, env.sensors.now);
      ghost var s1 := View();
      ok := Consolidate(env);
      CallStepIntro(settings, old(View()), PqEventCall(event), x, env, s1, View(), ok, View(), ok);
    }
  }
}
