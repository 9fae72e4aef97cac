/** The environment controller's methods as they are written, stage by stage; `Reconcile` is proved
    to be the pass whose convergence is shown (pkg/controller/drupalenvironment). */
module EnvironmentReconciler {
  import opened Options
  import opened SiteTypes
  import opened LabelSync
  import opened Finalizers
  import opened Rollout
  import opened Environment

  /** One stage: the need is met already, or its one write has been made; `stop` ends the pass. */
  predicate Stage(s: Scene, need: Need, id: string, t: Scene, stop: bool) {
    t == (if Met(s, need) then s else Fix(s, need, id)) && (stop <==> !Met(s, need) && !GoesOn(s, need))
  }

  /** The part of a pass from position `i` to position `j`. */
  predicate Part(s: Scene, i: nat, j: nat, id: string, t: Scene, stop: bool) {
    i <= j <= NEEDS && if stop then Walk(s, i, id) == Environment.Finish(t, false) else Walk(s, i, id) == Walk(t, j, id)
  }

  lemma StageIsPart(s: Scene, need: Need, id: string, t: Scene, stop: bool)
    requires Stage(s, need, id, t, stop)
    ensures Part(s, Rank(need), Rank(need) + 1, id, t, stop)
  {
    SameRank(need, At(Rank(need)));
  }

  lemma ProxyStage(s: Scene, id: string, t: Scene, stop: bool)
    requires t == s.(objects := s.objects.(proxy := NextProxy(s))) && (stop <==> !Met(s, Proxy))
    ensures Stage(s, Proxy, id, t, stop) && ProxyUpdated(s.objects.proxy, t.objects.proxy, t.env.spec.proxy)
  {
    assert Met(s, Proxy) ==> NextProxy(s) == s.objects.proxy;
    ProxyUpdates(s);
  }

  /** What the update makes of an existing Deployment. */
  lemma ProxyMetIff(s: Scene)
    ensures Met(s, Proxy) <==>
              && s.objects.proxy.Some? && s.objects.proxy.value.containers != [] && s.env.spec.proxy.containers != []
              && NextProxy(s) == s.objects.proxy
  {
  }

  lemma ConfigStage(s: Scene, need: Need, id: string, t: Scene, stop: bool)
    requires OfConfig(need)
    requires var name, configs := ConfigName(need), s.objects.configs;
             && t == s.(objects := s.objects.(configs := configs[name := DesiredConfig(s, name)]))
             && (stop <==> name !in configs)
    ensures Stage(s, need, id, t, stop)
  {
    var name, configs := ConfigName(need), s.objects.configs;
    if Met(s, need) {
      assert configs[name := DesiredConfig(s, name)] == configs;
    }
  }

  lemma PartsJoin(s: Scene, i: nat, t: Scene, j: nat, u: Scene, k: nat, id: string, stop: bool)
    requires Part(s, i, j, id, t, false) && Part(t, j, k, id, u, stop)
    ensures Part(s, i, k, id, u, stop)
  {
  }

  class EnvironmentReconciler {
    var scene: Scene

    constructor (scene: Scene)
      ensures this.scene == scene
    {
      this.scene := scene;
    }

    method EnsureId(id: string) returns (stop: bool)
      modifies this
      ensures Stage(old(scene), Id, id, scene, stop)
    {
      if scene.env.Id() != "" {
        return false;
      }
      var labels := scene.env.labels;
      labels := labels[ENVIRONMENT_ID := id];
      scene := scene.(env := scene.env.(labels := labels));
      return true;
    }

    method EnsureFinalizer(id: string) returns (stop: bool)
      modifies this
      ensures Stage(old(scene), Finalizer, id, scene, stop)
    {
      if ENV_FINALIZER in scene.env.finalizers {
        return false;
      }
      scene := scene.(env := scene.env.(finalizers := scene.env.finalizers + [ENV_FINALIZER]));
      return true;
    }

    method EnsureGitRef(id: string) returns (stop: bool)
      modifies this
      ensures Stage(old(scene), GitRef, id, scene, stop)
    {
      var labels, hash := scene.env.labels, scene.env.spec.gitHash;
      if GIT_REF in labels && labels[GIT_REF] == hash {
        return false;
      }
      labels := labels[GIT_REF := hash];
      scene := scene.(env := scene.env.(labels := labels));
      return true;
    }

    /** A missing application and a foreign controller end the pass without a write. */
    method LinkToApplication(id: string) returns (stop: bool)
      modifies this
      ensures Stage(old(scene), Link, id, scene, stop)
      ensures scene.app.None? || scene.env.control == ByOther ==> stop && scene == old(scene)
      ensures scene.app.Some? && scene.env.control != ByOther ==>
                && scene.env.control == ByParent && (stop <==> scene != old(scene))
                && scene.env.labels == SyncedLabels(scene.app.value, old(scene).env.labels, "fnresources.acquia.io/")
    {
      if scene.app.None? || scene.env.control == ByOther {
        return true;
      }
      var env := scene.env.(labels := SyncedLabels(scene.app.value, scene.env.labels, LABEL_PREFIX),
                            control := ByParent);
      if env == scene.env {
        return false;
      }
      scene := scene.(env := env);
      return true;
    }

    /** An absent ConfigMap is created, and the pass ends; a different one is overwritten, and it goes on. */
    method ReconcileConfigMap(need: Need, id: string) returns (stop: bool)
      requires OfConfig(need)
      modifies this
      ensures Stage(old(scene), need, id, scene, stop)
      ensures var name := if need.PhpConfig? then "php-config"
                          else if need.FpmConfig? then "phpfpm-config" else "proxysql-cnf";
              (stop <==> name !in old(scene).objects.configs) && Configured(scene, name)
    {
      var name := ConfigName(need);
      var data, configs := DesiredConfig(scene, name), scene.objects.configs;
      stop := name !in configs;
      if stop || configs[name] != data {
        scene := scene.(objects := scene.objects.(configs := configs[name := data]));
      } else {
        assert configs[name := data] == configs;
      }
      ConfigStage(old(scene), need, id, scene, stop);
    }

    /** The domain map's two objects are only created, never updated here. */
    method EnsureDomainMaps(id: string) returns (stop: bool)
      modifies this
      ensures Part(old(scene), Rank(DomainMap), Rank(DomainSecret) + 1, id, scene, stop)
    {
      ghost var s := scene;
      stop := !scene.objects.domainMap;
      if stop {
        scene := scene.(objects := scene.objects.(domainMap := true));
      }
      StageIsPart(s, DomainMap, id, scene, stop);
      if stop {
        return;
      }
      stop := !scene.objects.domainSecret;
      if stop {
        scene := scene.(objects := scene.objects.(domainSecret := true));
      }
      StageIsPart(s, DomainSecret, id, scene, stop);
    }

    method ReconcilePV(id: string) returns (stop: bool)
      modifies this
      ensures Stage(old(scene), PersistentVolume, id, scene, stop)
      ensures stop <==> scene != old(scene)
      ensures scene.fixed ==>
                var own := scene.env.Id();
                && own in scene.volumes && scene.volumes[own].handle == scene.env.spec.volumeHandle
                && (scene.volumes[own].deleting <==> own in old(scene).volumes && old(scene).volumes[own].deleting)
    {
      if !scene.fixed {
        return false;
      }
      var name, handle := scene.env.Id(), scene.env.spec.volumeHandle;
      if name !in scene.volumes {
        scene := scene.(volumes := scene.volumes[name := Volume(handle, false)]);
        return true;
      }
      var found := scene.volumes[name];
      if found.handle != handle {
        found := found.(handle := handle);
        scene := scene.(volumes := scene.volumes[name := found]);
        return true;
      }
      return false;
    }

    method ReconcilePVC(id: string) returns (stop: bool)
      modifies this
      ensures Stage(old(scene), Claim, id, scene, stop)
    {
      if scene.env.Id() in scene.objects.claims {
        return false;
      }
      scene := scene.(objects := scene.objects.(claims := scene.objects.claims + {scene.env.Id()}));
      return true;
    }

    method ReconcileDrupalRollout(id: string) returns (stop: bool)
      modifies this
      ensures Stage(old(scene), Need.Rollout, id, scene, stop)
      ensures stop <==> scene != old(scene)
      ensures scene.objects.rollout.Some? && scene.objects.rollout.value.labels == OwnLabels(scene.env.labels)
      ensures RolloutRuns(scene.objects.rollout.value.spec, scene.env.spec.rollout)
    {
      UniqueRuns(scene.env.spec.rollout);
      if scene.objects.rollout.Some? {
        SyncedRuns(scene.objects.rollout.value.spec, scene.env.spec.rollout);
      }
      var labels, wanted := scene.env.ChildLabels(), scene.env.spec.rollout;
      var live: LiveRollout;
      if scene.objects.rollout.None? {
        live := LiveRollout(labels, wanted);
      } else {
        var synced := SyncDrupalRollout(scene.objects.rollout.value.spec, wanted);
        live := LiveRollout(labels, synced);
      }
      stop := scene.objects.rollout != Some(live);
      scene := scene.(objects := scene.objects.(rollout := Some(live)));
    }

    method ReconcileProxySQLPVC(id: string) returns (stop: bool)
      modifies this
      ensures Stage(old(scene), ProxyClaim, id, scene, stop)
    {
      stop := !scene.objects.proxyClaim;
      scene := scene.(objects := scene.objects.(proxyClaim := true));
    }

    /** The update reads the first container of the Deployment; without one the pass crashes. */
    method ReconcileProxySQL(id: string) returns (stop: bool)
      modifies this
      ensures Stage(old(scene), Proxy, id, scene, stop)
      ensures ProxyUpdated(old(scene).objects.proxy, scene.objects.proxy, scene.env.spec.proxy)
    {
      var wanted, next := scene.env.spec.proxy, scene.objects.proxy;
      stop := true;
      if next.None? {
        next := if wanted.containers == [] then None else Some(wanted);
      } else if next.value.containers != [] && wanted.containers != [] {
        var live := next.value;
        live := live.(replicas := wanted.replicas);
        live := live.(volumes := wanted.volumes);
        var container := live.containers[0];
        container := container.(resources := wanted.containers[0].resources);
        container := container.(image := wanted.containers[0].image);
        container := container.(mounts := wanted.containers[0].mounts);
        live := live.(containers := live.containers[0 := container]);
        assert live == SyncedProxy(scene.objects.proxy.value, wanted);
        stop := next != Some(live);
        next := Some(live);
      }
      ProxyMetIff(scene);
      scene := scene.(objects := scene.objects.(proxy := next));
      ProxyStage(old(scene), id, scene, stop);
    }

    method ReconcileDrupalService(id: string) returns (stop: bool)
      modifies this
      ensures Stage(old(scene), DrupalService, id, scene, stop)
    {
      stop := !scene.objects.drupalService;
      scene := scene.(objects := scene.objects.(drupalService := true));
    }

    method ReconcileProxysqlService(id: string) returns (stop: bool)
      modifies this
      ensures Stage(old(scene), ProxyService, id, scene, stop)
    {
      var service := Service(scene.env.spec.ports, scene.env.ProxyLabels(), "");
      if scene.objects.proxyService.Some? {
        service := scene.objects.proxyService.value;
        service := service.(ports := scene.env.spec.ports);
        service := service.(selector := scene.env.ProxyLabels());
      }
      stop := scene.objects.proxyService != Some(service);
      scene := scene.(objects := scene.objects.(proxyService := Some(service)));
    }

    method ReconcileProxysqlServerConfig(id: string) returns (stop: bool)
      modifies this
      ensures Stage(old(scene), Servers, id, scene, stop)
      ensures !stop && scene.host in scene.objects.servers
    {
      if scene.host !in scene.objects.servers {
        scene := scene.(objects := scene.objects.(servers := scene.objects.servers + {scene.host}));
      }
      return false;
    }

    method ReconcileHPA(id: string) returns (stop: bool)
      modifies this
      ensures Stage(old(scene), Scaler, id, scene, stop)
    {
      stop := scene.objects.scaler != Some(scene.env.spec.scaler);
      scene := scene.(objects := scene.objects.(scaler := Some(scene.env.spec.scaler)));
    }

    /** Finalizer, git label and owner. */
    method Own(id: string) returns (stop: bool)
      modifies this
      ensures Part(old(scene), 1, 4, id, scene, stop)
    {
      ghost var s := scene;
      stop := EnsureFinalizer(id);
      StageIsPart(s, Finalizer, id, scene, stop);
      if stop {
        return;
      }
      ghost var t := scene;
      stop := EnsureGitRef(id);
      StageIsPart(t, GitRef, id, scene, stop);
      PartsJoin(s, 1, t, 2, scene, 3, id, stop);
      if stop {
        return;
      }
      t := scene;
      stop := LinkToApplication(id);
      StageIsPart(t, Link, id, scene, stop);
      PartsJoin(s, 1, t, 3, scene, 4, id, stop);
    }

    /** The shared maps, the configuration of PHP, the volume and its claim. */
    method Store(id: string) returns (stop: bool)
      modifies this
      ensures Part(old(scene), 4, 10, id, scene, stop)
    {
      ghost var s := scene;
      stop := EnsureDomainMaps(id);
      if stop {
        return;
      }
      ghost var t := scene;
      stop := ReconcileConfigMap(PhpConfig, id);
      StageIsPart(t, PhpConfig, id, scene, stop);
      PartsJoin(s, 4, t, 6, scene, 7, id, stop);
      if stop {
        return;
      }
      t := scene;
      stop := ReconcileConfigMap(FpmConfig, id);
      StageIsPart(t, FpmConfig, id, scene, stop);
      PartsJoin(s, 4, t, 7, scene, 8, id, stop);
      if stop {
        return;
      }
      t := scene;
      stop := ReconcilePV(id);
      StageIsPart(t, PersistentVolume, id, scene, stop);
      PartsJoin(s, 4, t, 8, scene, 9, id, stop);
      if stop {
        return;
      }
      t := scene;
      stop := ReconcilePVC(id);
      StageIsPart(t, Claim, id, scene, stop);
      PartsJoin(s, 4, t, 9, scene, 10, id, stop);
    }

    /** Drupal and ProxySQL. */
    method Deploy(id: string) returns (stop: bool)
      modifies this
      ensures Part(old(scene), 10, 14, id, scene, stop)
    {
      ghost var s := scene;
      stop := ReconcileDrupalRollout(id);
      StageIsPart(s, Need.Rollout, id, scene, stop);
      if stop {
        return;
      }
      ghost var t := scene;
      stop := ReconcileProxySQLPVC(id);
      StageIsPart(t, ProxyClaim, id, scene, stop);
      PartsJoin(s, 10, t, 11, scene, 12, id, stop);
      if stop {
        return;
      }
      t := scene;
      stop := ReconcileConfigMap(ProxyConfig, id);
      StageIsPart(t, ProxyConfig, id, scene, stop);
      PartsJoin(s, 10, t, 12, scene, 13, id, stop);
      if stop {
        return;
      }
      t := scene;
      stop := ReconcileProxySQL(id);
      StageIsPart(t, Proxy, id, scene, stop);
      PartsJoin(s, 10, t, 13, scene, 14, id, stop);
    }

    /** Services, server configuration and autoscaler. */
    method Expose(id: string) returns (stop: bool)
      modifies this
      ensures Part(old(scene), 14, 18, id, scene, stop)
    {
      ghost var s := scene;
      stop := ReconcileDrupalService(id);
      StageIsPart(s, DrupalService, id, scene, stop);
      if stop {
        return;
      }
      ghost var t := scene;
      stop := ReconcileProxysqlService(id);
      StageIsPart(t, ProxyService, id, scene, stop);
      PartsJoin(s, 14, t, 15, scene, 16, id, stop);
      if stop {
        return;
      }
      t := scene;
      stop := ReconcileProxysqlServerConfig(id);
      StageIsPart(t, Servers, id, scene, stop);
      PartsJoin(s, 14, t, 16, scene, 17, id, stop);
      if stop {
        return;
      }
      t := scene;
      stop := ReconcileHPA(id);
      StageIsPart(t, Scaler, id, scene, stop);
      PartsJoin(s, 14, t, 17, scene, 18, id, stop);
    }

    method FinalizePV() returns (requeue: bool)
      modifies this
      ensures requeue <==> VolumeStands(old(scene))
      ensures scene == if requeue then Environment.Finalized(old(scene)) else old(scene)
    {
      var name := scene.env.Id();
      if !scene.fixed || name !in scene.volumes {
        return false;
      }
      var found := scene.volumes[name];
      if !found.deleting {
        scene := scene.(volumes := scene.volumes[name := found.(deleting := true)]);
        return true;
      }
      return false;
    }

    /** The deletion branch. */
    method Finalize() returns (requeue: bool)
      modifies this
      ensures scene == Environment.Finalized(old(scene))
      ensures requeue <==> scene != old(scene)
    {
      requeue := FinalizePV();
      if requeue {
        return;
      }
      WithoutMembers(scene.env.finalizers, ENV_FINALIZER);
      requeue := ENV_FINALIZER in scene.env.finalizers;
      if requeue {
        var finalizers := Without(scene.env.finalizers, ENV_FINALIZER);
        scene := scene.(env := scene.env.(finalizers := finalizers));
      }
    }

    /** What an environment with an Id needs that is not being deleted. */
    method Serve(id: string) returns (stop: bool)
      modifies this
      ensures Part(old(scene), 1, 18, id, scene, stop)
    {
      ghost var s := scene;
      stop := Own(id);
      if stop {
        return;
      }
      ghost var t := scene;
      stop := Store(id);
      PartsJoin(s, 1, t, 4, scene, 10, id, stop);
      if stop {
        return;
      }
      t := scene;
      stop := Deploy(id);
      PartsJoin(s, 1, t, 10, scene, 14, id, stop);
      if stop {
        return;
      }
      t := scene;
      stop := Expose(id);
      PartsJoin(s, 1, t, 14, scene, 18, id, stop);
    }

    method Reconcile(id: string) returns (returned: bool)
      modifies this
      ensures Pass(old(scene), id) == Environment.Finish(scene, returned)
    {
      ghost var s := scene;
      var stop := EnsureId(id);
      StageIsPart(s, Id, id, scene, stop);
      if stop {
        return false;
      }
      if scene.env.deleting {
        stop := Finalize();
      } else {
        stop := Serve(id);
      }
      return !stop;
    }
  }
}
