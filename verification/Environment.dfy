/** One pass of the environment controller: a chain of needs, each met by at most one write
    (pkg/controller/drupalenvironment/drupalenvironment_controller.go, drupal.go, proxysql.go, hpa.go). */
module Environment {
  import opened Options
  import opened SiteTypes
  import opened LabelSync
  import opened Finalizers
  import opened Rollout

  const ENV_FINALIZER := "drupalenvironments.fnresources.acquia.io"
  const PHP_CONFIG := "php-config"
  const FPM_CONFIG := "phpfpm-config"
  const PROXY_CONFIG := "proxysql-cnf"

  type Data = map<string, string>

  datatype ProxyContainer = ProxyContainer(image: string, resources: string, mounts: string, rest: string)

  datatype Deployment = Deployment(replicas: int, volumes: string, containers: seq<ProxyContainer>, rest: string)

  datatype Service = Service(ports: string, selector: Labels, rest: string)

  datatype LiveRollout = LiveRollout(labels: Labels, spec: RolloutSpec)

  /** What the specification asks for, in terms of the objects to be created from it. */
  datatype EnvSpec = EnvSpec(
    gitHash: string, configs: map<string, Data>, volumeHandle: string, rollout: RolloutSpec,
    proxy: Deployment, ports: string, scaler: string)
  {
    /** The operator's own templates: three ConfigMaps, named containers, one ProxySQL container. */
    ghost predicate Complete() {
      && PHP_CONFIG in configs && FPM_CONFIG in configs && PROXY_CONFIG in configs
      && UniqueNames(rollout.initContainers) && UniqueNames(rollout.containers)
      && proxy.containers != []
    }
  }

  datatype Env = Env(labels: Labels, finalizers: seq<string>, deleting: bool, control: Control, spec: EnvSpec) {
    function Id(): string {
      Label(labels, ENVIRONMENT_ID)
    }

    predicate Protected() {
      ENV_FINALIZER in finalizers
    }

    function ChildLabels(): Labels {
      map[APPLICATION_ID := Label(labels, APPLICATION_ID), ENVIRONMENT_ID := Label(labels, ENVIRONMENT_ID)]
    }

    function ProxyLabels(): Labels {
      ChildLabels()["app" := "proxysql"]
    }
  }

  datatype Volume = Volume(handle: string, deleting: bool)

  /** The objects of the environment's namespace.  Volume claims are named after the Id. */
  datatype Objects = Objects(
    domainMap: bool, domainSecret: bool, configs: map<string, Data>, claims: set<string>,
    rollout: Option<LiveRollout>, proxyClaim: bool, proxy: Option<Deployment>, drupalService: bool,
    proxyService: Option<Service>, servers: set<string>, scaler: Option<string>)

  /** An environment with its surroundings: the labels of its application, if that exists, the
      cluster's volumes by environment Id, and the database host.  `fixed` is static provisioning. */
  datatype Scene = Scene(env: Env, app: Option<Labels>, volumes: map<string, Volume>, objects: Objects,
                         host: string, fixed: bool)

  datatype Need =
    | Id | Finalizer | GitRef | Link | DomainMap | DomainSecret | PhpConfig | FpmConfig | PersistentVolume | Claim
    | Rollout | ProxyClaim | ProxyConfig | Proxy | DrupalService | ProxyService | Servers | Scaler

  const NEEDS := 18

  /** The order in which a pass looks at them. */
  function Rank(need: Need): nat {
    match need
    case Id => 0 case Finalizer => 1 case GitRef => 2 case Link => 3 case DomainMap => 4 case DomainSecret => 5
    case PhpConfig => 6 case FpmConfig => 7 case PersistentVolume => 8 case Claim => 9 case Rollout => 10
    case ProxyClaim => 11 case ProxyConfig => 12 case Proxy => 13 case DrupalService => 14 case ProxyService => 15
    case Servers => 16 case Scaler => 17
  }

  function At(i: nat): (need: Need)
    requires i < NEEDS
    ensures Rank(need) == i
  {
    match i
    case 0 => Id case 1 => Finalizer case 2 => GitRef case 3 => Link case 4 => DomainMap case 5 => DomainSecret
    case 6 => PhpConfig case 7 => FpmConfig case 8 => PersistentVolume case 9 => Claim case 10 => Rollout
    case 11 => ProxyClaim case 12 => ProxyConfig case 13 => Proxy case 14 => DrupalService case 15 => ProxyService
    case 16 => Servers case _ => Scaler
  }

  function LinkedLabels(s: Scene): Labels
    requires s.app.Some?
  {
    SyncedLabels(s.app.value, s.env.labels, LABEL_PREFIX)
  }

  function ConfigName(need: Need): string
    requires need.PhpConfig? || need.FpmConfig? || need.ProxyConfig?
  {
    if need.PhpConfig? then PHP_CONFIG else if need.FpmConfig? then FPM_CONFIG else PROXY_CONFIG
  }

  function DesiredConfig(s: Scene, name: string): Data {
    if name in s.env.spec.configs then s.env.spec.configs[name] else map[]
  }

  /** The ProxySQL Deployment after the update: the first container only. */
  function SyncedProxy(d: Deployment, wanted: Deployment): Deployment
    requires d.containers != [] && wanted.containers != []
  {
    var c, w := d.containers[0], wanted.containers[0];
    d.(replicas := wanted.replicas, volumes := wanted.volumes,
       containers := d.containers[0 := c.(image := w.image, resources := w.resources, mounts := w.mounts)])
  }

  function SyncedService(svc: Service, s: Scene): Service {
    svc.(ports := s.env.spec.ports, selector := s.env.ProxyLabels())
  }

  // CreateOrUpdate: an absent object is created, an existing one is changed in place.

  function NextRollout(s: Scene): LiveRollout {
    var wanted := s.env.spec.rollout;
    match s.objects.rollout
    case None => LiveRollout(s.env.ChildLabels(), wanted)
    case Some(live) => LiveRollout(s.env.ChildLabels(), Synced(live.spec, wanted))
  }

  function NextService(s: Scene): Service {
    match s.objects.proxyService
    case None => Service(s.env.spec.ports, s.env.ProxyLabels(), "")
    case Some(live) => SyncedService(live, s)
  }

  /** The first container is looked at without asking whether there is one. */
  function NextProxy(s: Scene): Option<Deployment> {
    var wanted := s.env.spec.proxy;
    match s.objects.proxy
    case None => if wanted.containers == [] then None else Some(wanted)
    case Some(live) => Some(if live.containers == [] || wanted.containers == [] then live
                            else SyncedProxy(live, wanted))
  }

  predicate Met(s: Scene, need: Need) {
    var env, o := s.env, s.objects;
    match need
    case Id => env.Id() != ""
    case Finalizer => env.Protected()
    case GitRef => GIT_REF in env.labels && env.labels[GIT_REF] == env.spec.gitHash
    case Link => s.app.Some? && LinkedLabels(s) == env.labels && env.control == ByParent
    case DomainMap => o.domainMap
    case DomainSecret => o.domainSecret
    case PersistentVolume => s.fixed ==> env.Id() in s.volumes && s.volumes[env.Id()].handle == env.spec.volumeHandle
    case Claim => env.Id() in o.claims
    case Rollout =>
      o.rollout.Some?
      && o.rollout.value == LiveRollout(env.ChildLabels(), Synced(o.rollout.value.spec, env.spec.rollout))
    case ProxyClaim => o.proxyClaim
    case Proxy =>
      o.proxy.Some? && o.proxy.value.containers != [] && env.spec.proxy.containers != []
      && SyncedProxy(o.proxy.value, env.spec.proxy) == o.proxy.value
    case DrupalService => o.drupalService
    case ProxyService => o.proxyService.Some? && SyncedService(o.proxyService.value, s) == o.proxyService.value
    case Servers => s.host in o.servers
    case Scaler => o.scaler == Some(env.spec.scaler)
    case _ => ConfigName(need) in o.configs && o.configs[ConfigName(need)] == DesiredConfig(s, ConfigName(need))
  }

  /** The write for a need that is not met.  A missing application, another controller, or a
      Deployment without containers makes the pass fail there, and nothing is written. */
  function Fix(s: Scene, need: Need, id: string): Scene {
    var env, o := s.env, s.objects;
    match need
    case Id => s.(env := env.(labels := env.labels[ENVIRONMENT_ID := id]))
    case Finalizer => s.(env := env.(finalizers := With(env.finalizers, ENV_FINALIZER)))
    case GitRef => s.(env := env.(labels := env.labels[GIT_REF := env.spec.gitHash]))
    case Link =>
      if s.app.None? || env.control == ByOther then s
      else s.(env := env.(labels := LinkedLabels(s), control := ByParent))
    case DomainMap => s.(objects := o.(domainMap := true))
    case DomainSecret => s.(objects := o.(domainSecret := true))
    case PersistentVolume =>
      var deleting := env.Id() in s.volumes && s.volumes[env.Id()].deleting;
      s.(volumes := s.volumes[env.Id() := Volume(env.spec.volumeHandle, deleting)])
    case Claim => s.(objects := o.(claims := o.claims + {env.Id()}))
    case Rollout => s.(objects := o.(rollout := Some(NextRollout(s))))
    case ProxyClaim => s.(objects := o.(proxyClaim := true))
    case Proxy => s.(objects := o.(proxy := NextProxy(s)))
    case DrupalService => s.(objects := o.(drupalService := true))
    case ProxyService => s.(objects := o.(proxyService := Some(NextService(s))))
    case Servers => s.(objects := o.(servers := o.servers + {s.host}))
    case Scaler => s.(objects := o.(scaler := Some(env.spec.scaler)))
    case _ => s.(objects := o.(configs := o.configs[ConfigName(need) := DesiredConfig(s, ConfigName(need))]))
  }

  /** Updating a ConfigMap and configuring the servers are the two writes after which a pass goes on. */
  predicate GoesOn(s: Scene, need: Need) {
    need.Servers? || ((need.PhpConfig? || need.FpmConfig? || need.ProxyConfig?)
                      && ConfigName(need) in s.objects.configs)
  }

  datatype Finish = Finish(scene: Scene, returned: bool)

  /** A pass from the need at position `i` on; it returns, or asks for another pass, or fails. */
  function Walk(s: Scene, i: nat, id: string): Finish
    decreases NEEDS - i
  {
    if i >= NEEDS then Finish(s, true)
    else if Met(s, At(i)) then Walk(s, i + 1, id)
    else if GoesOn(s, At(i)) then Walk(Fix(s, At(i), id), i + 1, id)
    else Finish(Fix(s, At(i), id), false)
  }

  /** A volume of the environment that is not marked for deletion. */
  predicate VolumeStands(s: Scene) {
    s.fixed && s.env.Id() in s.volumes && !s.volumes[s.env.Id()].deleting
  }

  /** The deletion branch: a volume that is not marked yet is marked first, then the finalizer goes. */
  function Finalized(s: Scene): Scene {
    var env, id := s.env, s.env.Id();
    if VolumeStands(s) then s.(volumes := s.volumes[id := s.volumes[id].(deleting := true)])
    else s.(env := env.(finalizers := Without(env.finalizers, ENV_FINALIZER)))
  }

  /** A whole pass.  An environment without an Id gets one even while it is being deleted. */
  function Pass(s: Scene, id: string): Finish {
    if s.env.deleting && s.env.Id() != "" then Finish(Finalized(s), Finalized(s) == s) else Walk(s, 0, id)
  }

  ghost predicate MetBelow(s: Scene, n: nat) {
    forall need: Need :: Rank(need) < n ==> Met(s, need)
  }

  ghost predicate AllMet(s: Scene) {
    forall need: Need :: Met(s, need)
  }

  ghost predicate AtRest(s: Scene) {
    !s.env.deleting && AllMet(s)
  }

  /** The application does not hand down an empty Id or the hash of another git reference. */
  predicate CleanApp(s: Scene) {
    s.app.Some? ==>
      && (ENVIRONMENT_ID in s.app.value ==> s.app.value[ENVIRONMENT_ID] != "")
      && (GIT_REF in s.app.value ==> s.app.value[GIT_REF] == s.env.spec.gitHash)
  }

  /** What no pass can repair. */
  predicate Hopeless(s: Scene) {
    || s.app.None? || s.env.control == ByOther || !CleanApp(s)
    || (s.objects.proxy.Some? && s.objects.proxy.value.containers == [])
  }

  ghost predicate Workable(s: Scene) {
    !s.env.deleting && s.env.spec.Complete() && !Hopeless(s)
  }

  // ---- Every write meets its need and keeps the earlier ones ----

  lemma RolloutSettles(live: RolloutSpec, spec: RolloutSpec)
    requires UniqueNames(spec.initContainers) && UniqueNames(spec.containers)
    ensures Synced(Synced(live, spec), spec) == Synced(live, spec)
    ensures Synced(spec, spec) == spec
  {
    SyncIsIdempotent(live, spec);
    forall i | 0 <= i < |spec.containers| ensures SyncFirst(spec.containers[i], spec.containers) == spec.containers[i] {
      SyncFirstIsLookup(spec.containers[i], spec.containers);
      ByNameMembers(spec.containers);
    }
    forall i | 0 <= i < |spec.initContainers|
      ensures SyncAll(spec.initContainers[i], spec.initContainers) == spec.initContainers[i]
    {
      SyncAllIsLookup(spec.initContainers[i], spec.initContainers);
      ByNameMembers(spec.initContainers);
    }
  }

  lemma LinkStays(s: Scene)
    requires s.app.Some?
    ensures var t := s.(env := s.env.(labels := LinkedLabels(s))); LinkedLabels(t) == LinkedLabels(s)
    ensures forall k :: k !in s.app.value ==>
              && (k in LinkedLabels(s) <==> k in s.env.labels)
              && (k in s.env.labels ==> LinkedLabels(s)[k] == s.env.labels[k])
    ensures forall k :: k in s.app.value && HasPrefix(k, LABEL_PREFIX) ==>
              k in LinkedLabels(s) && LinkedLabels(s)[k] == s.app.value[k]
  {
    SyncedLabelsMeaning(s.app.value, s.env.labels, LABEL_PREFIX);
  }

  lemma EnvFixMeets(s: Scene, need: Need, id: string)
    requires Workable(s) && id != "" && Rank(need) <= 3
    ensures Met(Fix(s, need, id), need)
  {
    LinkStays(s);
  }

  lemma ObjectFixMeets(s: Scene, need: Need, id: string)
    requires Workable(s) && Rank(need) >= 4
    ensures Met(Fix(s, need, id), need)
  {
    if need.Rollout? && s.objects.rollout.Some? {
      RolloutSettles(s.objects.rollout.value.spec, s.env.spec.rollout);
    } else if need.Rollout? {
      RolloutSettles(s.env.spec.rollout, s.env.spec.rollout);
    }
  }

  lemma EnvFixKeeps(s: Scene, need: Need, id: string, earlier: Need)
    requires Workable(s) && Rank(earlier) < Rank(need) <= 3 && Met(s, earlier)
    ensures Met(Fix(s, need, id), earlier)
  {
    LinkStays(s);
  }

  predicate OfConfig(need: Need) {
    need.PhpConfig? || need.FpmConfig? || need.ProxyConfig?
  }

  /** The part of the surroundings that a need looks at is the same. */
  predicate SamePart(s: Scene, t: Scene, need: Need) {
    var a, b := s.objects, t.objects;
    match need
    case DomainMap => a.domainMap == b.domainMap
    case DomainSecret => a.domainSecret == b.domainSecret
    case PersistentVolume => s.volumes == t.volumes
    case Claim => a.claims == b.claims
    case Rollout => a.rollout == b.rollout
    case ProxyClaim => a.proxyClaim == b.proxyClaim
    case Proxy => a.proxy == b.proxy
    case DrupalService => a.drupalService == b.drupalService
    case ProxyService => a.proxyService == b.proxyService
    case Servers => a.servers == b.servers
    case Scaler => a.scaler == b.scaler
    case _ =>
      OfConfig(need) && ConfigName(need) in a.configs ==>
        ConfigName(need) in b.configs && a.configs[ConfigName(need)] == b.configs[ConfigName(need)]
  }

  predicate SameEnv(s: Scene, t: Scene) {
    s.env == t.env && s.app == t.app && s.host == t.host && s.fixed == t.fixed
  }

  lemma SamePartMet(s: Scene, t: Scene, need: Need)
    requires SameEnv(s, t) && SamePart(s, t, need) && Met(s, need)
    ensures Met(t, need)
  {
  }

  predicate OnlyConfig(a: map<string, Data>, b: map<string, Data>, name: string) {
    name in b && b == a[name := b[name]]
  }

  /** Nothing but the part of one need differs. */
  predicate OnlyPart(s: Scene, t: Scene, need: Need) {
    var a, b := s.objects, t.objects;
    && SameEnv(s, t)
    && (need.DomainMap? || a.domainMap == b.domainMap) && (need.DomainSecret? || a.domainSecret == b.domainSecret)
    && (need.PersistentVolume? || s.volumes == t.volumes) && (need.Claim? || a.claims == b.claims)
    && (need.Rollout? || a.rollout == b.rollout) && (need.ProxyClaim? || a.proxyClaim == b.proxyClaim)
    && (need.Proxy? || a.proxy == b.proxy) && (need.DrupalService? || a.drupalService == b.drupalService)
    && (need.ProxyService? || a.proxyService == b.proxyService) && (need.Servers? || a.servers == b.servers)
    && (need.Scaler? || a.scaler == b.scaler)
    && (if OfConfig(need) then OnlyConfig(a.configs, b.configs, ConfigName(need)) else a.configs == b.configs)
  }

  lemma MapsOnlyPart(s: Scene, need: Need, id: string)
    requires 4 <= Rank(need) <= 7
    ensures OnlyPart(s, Fix(s, need, id), need)
  {
  }

  lemma VolumesOnlyPart(s: Scene, need: Need, id: string)
    requires 8 <= Rank(need) <= 10
    ensures OnlyPart(s, Fix(s, need, id), need)
  {
  }

  lemma ProxyOnlyPart(s: Scene, need: Need, id: string)
    requires 11 <= Rank(need) <= 13
    ensures OnlyPart(s, Fix(s, need, id), need)
  {
  }

  lemma ServicesOnlyPart(s: Scene, need: Need, id: string)
    requires 14 <= Rank(need) <= 15
    ensures OnlyPart(s, Fix(s, need, id), need)
  {
  }

  lemma LastOnlyPart(s: Scene, need: Need, id: string)
    requires 16 <= Rank(need) <= 17
    ensures OnlyPart(s, Fix(s, need, id), need)
  {
  }

  /** A write to an object touches no other need's part. */
  lemma FixOnlyPart(s: Scene, need: Need, id: string)
    requires Rank(need) >= 4
    ensures OnlyPart(s, Fix(s, need, id), need)
  {
    if Rank(need) <= 7 {
      MapsOnlyPart(s, need, id);
    } else if Rank(need) <= 10 {
      VolumesOnlyPart(s, need, id);
    } else if Rank(need) <= 13 {
      ProxyOnlyPart(s, need, id);
    } else if Rank(need) <= 15 {
      ServicesOnlyPart(s, need, id);
    } else {
      LastOnlyPart(s, need, id);
    }
  }

  lemma OnlyPartIsOne(s: Scene, t: Scene, need: Need, other: Need)
    requires OnlyPart(s, t, need) && other != need
    ensures SamePart(s, t, other)
  {
  }

  /** No write undoes an earlier one. */
  lemma FixKeeps(s: Scene, need: Need, id: string, earlier: Need)
    requires Workable(s) && Rank(earlier) < Rank(need) && Met(s, earlier)
    ensures Met(Fix(s, need, id), earlier)
  {
    if Rank(need) <= 3 {
      EnvFixKeeps(s, need, id, earlier);
    } else {
      FixOnlyPart(s, need, id);
      OnlyPartIsOne(s, Fix(s, need, id), need, earlier);
      SamePartMet(s, Fix(s, need, id), earlier);
    }
  }

  lemma EnvFixStaysWorkable(s: Scene, need: Need, id: string)
    requires Workable(s) && Rank(need) <= 3
    ensures Workable(Fix(s, need, id))
  {
  }

  lemma NextProxyHasContainers(s: Scene)
    requires Workable(s)
    ensures NextProxy(s).Some? && NextProxy(s).value.containers != []
  {
  }

  lemma ProxyFixStaysWorkable(s: Scene, id: string)
    requires Workable(s)
    ensures Workable(Fix(s, Proxy, id))
  {
    NextProxyHasContainers(s);
    assert Fix(s, Proxy, id) == s.(objects := s.objects.(proxy := NextProxy(s)));
  }

  lemma FixStaysWorkable(s: Scene, need: Need, id: string)
    requires Workable(s)
    ensures Workable(Fix(s, need, id))
  {
    if Rank(need) <= 3 {
      EnvFixStaysWorkable(s, need, id);
    } else if need.Proxy? {
      ProxyFixStaysWorkable(s, id);
    } else {
      FixOnlyPart(s, need, id);
    }
  }

  lemma FixMeets(s: Scene, need: Need, id: string)
    requires Workable(s) && id != ""
    ensures Met(Fix(s, need, id), need)
  {
    if Rank(need) <= 3 {
      EnvFixMeets(s, need, id);
    } else {
      ObjectFixMeets(s, need, id);
    }
  }

  lemma FixExtends(s: Scene, i: nat, id: string)
    requires Workable(s) && i < NEEDS && MetBelow(s, i) && id != ""
    ensures Workable(Fix(s, At(i), id)) && MetBelow(Fix(s, At(i), id), i + 1)
  {
    FixStaysWorkable(s, At(i), id);
    FixMeets(s, At(i), id);
    forall need: Need | Rank(need) < i + 1 ensures Met(Fix(s, At(i), id), need) {
      if Rank(need) < i {
        FixKeeps(s, At(i), id, need);
      } else {
        SameRank(need, At(i));
      }
    }
  }

  lemma SameRank(a: Need, b: Need)
    requires Rank(a) == Rank(b)
    ensures a == b
  {
  }

  lemma MetNext(s: Scene, i: nat)
    requires i < NEEDS && MetBelow(s, i) && Met(s, At(i))
    ensures MetBelow(s, i + 1)
  {
    forall need: Need | Rank(need) < i + 1 ensures Met(s, need) {
      if Rank(need) == i {
        SameRank(need, At(i));
      }
    }
  }

  // ---- Convergence ----

  /** The first need that is not met; NEEDS if there is none. */
  function FirstOpen(s: Scene, i: nat): (u: nat)
    requires i <= NEEDS
    ensures i <= u <= NEEDS
    ensures u < NEEDS ==> !Met(s, At(u))
    decreases NEEDS - i
  {
    if i == NEEDS || !Met(s, At(i)) then i else FirstOpen(s, i + 1)
  }

  lemma {:induction false} FirstOpenFrom(s: Scene, i: nat, from: nat)
    requires from <= i <= NEEDS && MetBelow(s, i)
    ensures FirstOpen(s, from) >= i
    decreases i - from
  {
    if from < i {
      assert Met(s, At(from));
      FirstOpenFrom(s, i, from + 1);
    }
  }

  lemma {:induction false} MetBelowFirst(s: Scene, i: nat)
    requires i <= NEEDS && MetBelow(s, i)
    ensures MetBelow(s, FirstOpen(s, i))
    decreases NEEDS - i
  {
    if i < NEEDS && Met(s, At(i)) {
      MetNext(s, i);
      MetBelowFirst(s, i + 1);
    }
  }

  lemma EveryNeedMet(s: Scene)
    requires MetBelow(s, NEEDS)
    ensures AllMet(s)
  {
    forall need: Need ensures Met(s, need) {
      assert Rank(need) < NEEDS;
    }
  }

  /** The rest of a pass gets at least as far, and only a pass that meets everything returns. */
  lemma {:induction false} WalkProgress(s: Scene, i: nat, id: string)
    requires Workable(s) && i <= NEEDS && MetBelow(s, i) && id != ""
    ensures var f := Walk(s, i, id);
            Workable(f.scene) && if f.returned then AtRest(f.scene) else MetBelow(f.scene, i + 1)
    decreases NEEDS - i
  {
    if i == NEEDS {
      EveryNeedMet(s);
    } else if Met(s, At(i)) {
      MetNext(s, i);
      WalkProgress(s, i + 1, id);
      var f := Walk(s, i + 1, id);
      assert !f.returned ==> MetBelow(f.scene, i + 1);
    } else {
      FixExtends(s, i, id);
      if GoesOn(s, At(i)) {
        WalkProgress(Fix(s, At(i), id), i + 1, id);
        assert !Walk(s, i, id).returned ==> MetBelow(Walk(s, i, id).scene, i + 1);
      }
    }
  }

  lemma {:induction false} WalkSkips(s: Scene, i: nat, u: nat, id: string)
    requires i <= u <= NEEDS && MetBelow(s, u)
    ensures Walk(s, i, id) == Walk(s, u, id)
    decreases u - i
  {
    if i < u {
      assert Met(s, At(i));
      WalkSkips(s, i + 1, u, id);
    }
  }

  /** A pass that does not return has met the first open need and kept all before it. */
  lemma PassProgress(s: Scene, id: string)
    requires Workable(s) && id != ""
    ensures var f := Pass(s, id);
            Workable(f.scene) && (f.returned ==> AtRest(f.scene))
              && (!f.returned ==> FirstOpen(f.scene, 0) > FirstOpen(s, 0))
  {
    var u := FirstOpen(s, 0);
    MetBelowFirst(s, 0);
    WalkSkips(s, 0, u, id);
    WalkProgress(s, u, id);
    var f := Pass(s, id);
    if !f.returned {
      if u < NEEDS {
        FirstOpenFrom(f.scene, u + 1, 0);
      }
    }
  }

  /** At rest a pass writes nothing and returns. */
  lemma RestIsFixed(s: Scene, id: string)
    requires AtRest(s)
    ensures Pass(s, id) == Finish(s, true)
  {
    WalkSkips(s, 0, NEEDS, id);
  }

  // ---- What an environment at rest has, and what updates leave alone ----

  /** ProxySQL as the specification wants it: the Deployment's size and volumes, and its first container. */
  predicate ProxyRuns(d: Deployment, wanted: Deployment) {
    && d.replicas == wanted.replicas && d.volumes == wanted.volumes && d.containers != [] && wanted.containers != []
    && d.containers[0].image == wanted.containers[0].image
    && d.containers[0].resources == wanted.containers[0].resources
    && d.containers[0].mounts == wanted.containers[0].mounts
  }

  /** All else of the Deployment. */
  predicate ProxyKept(live: Deployment, d: Deployment) {
    && d.rest == live.rest && |d.containers| == |live.containers|
    && (live.containers != [] ==> d.containers[0].rest == live.containers[0].rest)
    && forall i :: 1 <= i < |live.containers| ==> d.containers[i] == live.containers[i]
  }

  /** A container has the image, the amounts and the pull policy of its desired namesake. */
  predicate ContainerRuns(c: Container, d: Container) {
    && c.image == d.image && c.pullPolicy == d.pullPolicy
    && CpuAndMemory(c.resources.limits) == CpuAndMemory(d.resources.limits)
    && CpuAndMemory(c.resources.requests) == CpuAndMemory(d.resources.requests)
  }

  ghost predicate RolloutRuns(live: RolloutSpec, wanted: RolloutSpec) {
    && live.strategy == wanted.strategy
    && (UniqueNames(wanted.initContainers) ==>
          forall c, d :: c in live.initContainers && d in wanted.initContainers && c.name == d.name ==>
            ContainerRuns(c, d))
    && (UniqueNames(wanted.containers) ==>
          forall c, d :: c in live.containers && d in wanted.containers && c.name == d.name ==>
            ContainerRuns(c, d) && c.readinessProbe == d.readinessProbe && c.livenessProbe == d.livenessProbe)
  }

  /** The data that the specification gives for this ConfigMap; none if it gives none. */
  predicate Configured(s: Scene, name: string) {
    && name in s.objects.configs
    && s.objects.configs[name] == if name in s.env.spec.configs then s.env.spec.configs[name] else map[]
  }

  /** Id, finalizer, git label, owner and the application's labels. */
  predicate Identified(s: Scene) {
    && ENVIRONMENT_ID in s.env.labels && s.env.labels[ENVIRONMENT_ID] != ""
    && "drupalenvironments.fnresources.acquia.io" in s.env.finalizers
    && GIT_REF in s.env.labels && s.env.labels[GIT_REF] == s.env.spec.gitHash
    && s.app.Some? && s.env.control == ByParent
    && forall k :: k in s.app.value && "fnresources.acquia.io/" <= k ==>
         k in s.env.labels && s.env.labels[k] == s.app.value[k]
  }

  /** The labels of an environment's objects. */
  function OwnLabels(labels: Labels): Labels {
    map[APPLICATION_ID := Label(labels, APPLICATION_ID), ENVIRONMENT_ID := Label(labels, ENVIRONMENT_ID)]
  }

  /** The shared maps, the ConfigMaps, the volume and its claim. */
  predicate Equipped(s: Scene) {
    && s.objects.domainMap && s.objects.domainSecret && s.objects.proxyClaim && s.objects.drupalService
    && Configured(s, "php-config") && Configured(s, "phpfpm-config") && Configured(s, "proxysql-cnf")
    && (s.fixed ==> s.env.Id() in s.volumes && s.volumes[s.env.Id()].handle == s.env.spec.volumeHandle)
    && s.env.Id() in s.objects.claims
  }

  /** Drupal and ProxySQL, reachable and scaled. */
  ghost predicate Deployed(s: Scene) {
    var o, spec := s.objects, s.env.spec;
    && o.rollout.Some? && o.rollout.value.labels == OwnLabels(s.env.labels)
    && RolloutRuns(o.rollout.value.spec, spec.rollout)
    && o.proxy.Some? && ProxyRuns(o.proxy.value, spec.proxy)
    && o.proxyService.Some? && o.proxyService.value.ports == spec.ports
    && o.proxyService.value.selector == OwnLabels(s.env.labels)["app" := "proxysql"]
    && s.host in o.servers && o.scaler == Some(spec.scaler)
  }

  lemma SyncedRuns(live: RolloutSpec, wanted: RolloutSpec)
    ensures RolloutRuns(Synced(live, wanted), wanted)
  {
    var r := Synced(live, wanted);
    if UniqueNames(wanted.initContainers) {
      forall c, d | c in r.initContainers && d in wanted.initContainers && c.name == d.name
        ensures ContainerRuns(c, d)
      {
        var i :| 0 <= i < |r.initContainers| && r.initContainers[i] == c;
        SyncedMatchesSpec(live, wanted, i, d);
      }
    }
    if UniqueNames(wanted.containers) {
      forall c, d | c in r.containers && d in wanted.containers && c.name == d.name
        ensures ContainerRuns(c, d) && c.readinessProbe == d.readinessProbe && c.livenessProbe == d.livenessProbe
      {
        var i :| 0 <= i < |r.containers| && r.containers[i] == c;
        SyncedMatchesSpec(live, wanted, i, d);
      }
    }
    SyncedMatchesSpec(live, wanted, 0, Container("", "", "", Resources(map[], map[]), None, None, ""));
  }

  /** At rest an environment has everything it needs, with the content that the specification gives. */
  lemma RestMeaning(s: Scene)
    requires AtRest(s)
    ensures Identified(s) && Equipped(s) && Deployed(s)
  {
    RestIsIdentified(s);
    RestIsEquipped(s);
    RestIsDeployed(s);
  }

  lemma RestIsEquipped(s: Scene)
    requires AtRest(s)
    ensures Equipped(s)
  {
    assert Met(s, DomainMap) && Met(s, DomainSecret) && Met(s, ProxyClaim) && Met(s, DrupalService);
    assert Met(s, PhpConfig) && Met(s, FpmConfig) && Met(s, ProxyConfig);
    assert Met(s, PersistentVolume) && Met(s, Claim);
  }

  lemma RestIsDeployed(s: Scene)
    requires AtRest(s)
    ensures Deployed(s)
  {
    RolloutAtRest(s);
    ProxyAtRest(s);
    ServiceAtRest(s);
  }

  lemma RolloutAtRest(s: Scene)
    requires AtRest(s)
    ensures var r := s.objects.rollout;
            r.Some? && r.value.labels == OwnLabels(s.env.labels) && RolloutRuns(r.value.spec, s.env.spec.rollout)
  {
    assert Met(s, Rollout);
    SyncedRuns(s.objects.rollout.value.spec, s.env.spec.rollout);
  }

  lemma ProxyAtRest(s: Scene)
    requires AtRest(s)
    ensures s.objects.proxy.Some? && ProxyRuns(s.objects.proxy.value, s.env.spec.proxy)
  {
    assert Met(s, Proxy);
    var d := s.objects.proxy.value;
    assert d.containers[0] == SyncedProxy(d, s.env.spec.proxy).containers[0];
  }

  lemma ServiceAtRest(s: Scene)
    requires AtRest(s)
    ensures s.host in s.objects.servers && s.objects.scaler == Some(s.env.spec.scaler)
    ensures var v := s.objects.proxyService;
            && v.Some? && v.value.ports == s.env.spec.ports
            && v.value.selector == OwnLabels(s.env.labels)["app" := "proxysql"]
  {
    assert Met(s, ProxyService) && Met(s, Servers) && Met(s, Scaler);
  }

  lemma RestIsIdentified(s: Scene)
    requires AtRest(s)
    ensures Identified(s)
  {
    assert Met(s, Id) && Met(s, Finalizer) && Met(s, GitRef) && Met(s, Link);
    SyncedLabelsMeaning(s.app.value, s.env.labels, LABEL_PREFIX);
  }

  /** What the update of one object keeps of it, and what a new one is like. */
  ghost predicate Updates(s: Scene, t: Scene, need: Need, id: string) {
    var a, b, spec, own := s.objects, t.objects, s.env.spec, s.env.Id();
    match need
    case Id => t == s.(env := s.env.(labels := s.env.labels[ENVIRONMENT_ID := id]))
    case Finalizer =>
      && t == s.(env := s.env.(finalizers := t.env.finalizers))
      && t.env.finalizers
         == s.env.finalizers + if s.env.Protected() then [] else ["drupalenvironments.fnresources.acquia.io"]
    case GitRef => t == s.(env := s.env.(labels := s.env.labels[GIT_REF := spec.gitHash]))
    case PhpConfig => SetsConfig(s, t, "php-config")
    case FpmConfig => SetsConfig(s, t, "phpfpm-config")
    case ProxyConfig => SetsConfig(s, t, "proxysql-cnf")
    case PersistentVolume =>
      && own in t.volumes && t.volumes - {own} == s.volumes - {own}
      && (t.volumes[own].deleting <==> own in s.volumes && s.volumes[own].deleting)
    case Claim => b.claims == a.claims + {own}
    case Servers => b.servers == a.servers + {s.host}
    case Rollout =>
      && b.rollout.Some? && RolloutRuns(b.rollout.value.spec, spec.rollout)
      && (a.rollout.None? ==> b.rollout.value.spec == spec.rollout)
      && (a.rollout.Some? ==> RolloutKept(a.rollout.value.spec, b.rollout.value.spec))
    case Proxy => ProxyUpdated(a.proxy, b.proxy, spec.proxy)
    case ProxyService =>
      && b.proxyService.Some?
      && b.proxyService.value.rest == if a.proxyService.None? then "" else a.proxyService.value.rest
    case _ => true
  }

  predicate SetsConfig(s: Scene, t: Scene, name: string) {
    Configured(t, name) && t.objects.configs - {name} == s.objects.configs - {name}
  }

  /** An absent Deployment is created as wanted; of an existing one the first container is brought in line. */
  predicate ProxyUpdated(before: Option<Deployment>, after: Option<Deployment>, wanted: Deployment) {
    if before.None? then after == if wanted.containers == [] then None else Some(wanted)
    else
      && after.Some? && ProxyKept(before.value, after.value)
      && (before.value.containers != [] && wanted.containers != [] ==> ProxyRuns(after.value, wanted))
  }

  /** Containers keep their names, order and unsynchronised fields. */
  predicate RolloutKept(live: RolloutSpec, r: RolloutSpec) {
    && r.rest == live.rest && |r.initContainers| == |live.initContainers| && |r.containers| == |live.containers|
    && (forall i :: 0 <= i < |live.initContainers| ==>
          && r.initContainers[i].name == live.initContainers[i].name
          && r.initContainers[i].rest == live.initContainers[i].rest)
    && (forall i :: 0 <= i < |live.containers| ==>
          r.containers[i].name == live.containers[i].name && r.containers[i].rest == live.containers[i].rest)
  }

  lemma RolloutUpdates(s: Scene, id: string)
    ensures Updates(s, Fix(s, Rollout, id), Rollout, id)
  {
    var wanted := s.env.spec.rollout;
    if s.objects.rollout.Some? {
      SyncedRuns(s.objects.rollout.value.spec, wanted);
      SyncedKept(s.objects.rollout.value.spec, wanted);
    } else {
      UniqueRuns(wanted);
    }
    assert Fix(s, Rollout, id).objects.rollout == Some(NextRollout(s));
  }

  lemma SyncedKept(live: RolloutSpec, wanted: RolloutSpec)
    ensures RolloutKept(live, Synced(live, wanted))
  {
    SyncKeepsShape(live, wanted);
  }

  lemma UniqueRuns(wanted: RolloutSpec)
    ensures RolloutRuns(wanted, wanted)
  {
    ByNameMembers(wanted.initContainers);
    ByNameMembers(wanted.containers);
  }

  lemma ProxyUpdates(s: Scene)
    ensures ProxyUpdated(s.objects.proxy, NextProxy(s), s.env.spec.proxy)
  {
  }

  lemma FixUpdates(s: Scene, need: Need, id: string)
    ensures Updates(s, Fix(s, need, id), need, id)
  {
    if need.Rollout? {
      RolloutUpdates(s, id);
    } else if need.Proxy? {
      ProxyUpdates(s);
    } else if need.PersistentVolume? {
      assert Fix(s, need, id).volumes - {s.env.Id()} == s.volumes - {s.env.Id()};
    } else if OfConfig(need) {
      ConfigUpdates(s, need, id);
    }
  }

  lemma ConfigUpdates(s: Scene, need: Need, id: string)
    requires OfConfig(need)
    ensures Updates(s, Fix(s, need, id), need, id)
  {
    var t, name := Fix(s, need, id), ConfigName(need);
    assert t.objects.configs == s.objects.configs[name := DesiredConfig(s, name)];
    assert t.objects.configs - {name} == s.objects.configs - {name};
  }

  function Passes(s: Scene, ids: seq<string>): Scene
    decreases |ids|
  {
    if ids == [] then s else Passes(Pass(s, ids[0]).scene, ids[1..])
  }

  lemma {:induction false} PassesConverge(s: Scene, ids: seq<string>)
    requires Workable(s) && (forall k :: 0 <= k < |ids| ==> ids[k] != "")
    requires AtRest(s) || |ids| > NEEDS - FirstOpen(s, 0)
    ensures AtRest(Passes(s, ids))
    decreases |ids|
  {
    if ids != [] {
      assert ids[0] != "";
      PassProgress(s, ids[0]);
      if AtRest(s) {
        RestIsFixed(s, ids[0]);
      }
      PassesConverge(Pass(s, ids[0]).scene, ids[1..]);
    }
  }

  // ---- Deletion ----

  /** One volume marked for deletion, and nothing else changed. */
  function Marked(volumes: map<string, Volume>, id: string): map<string, Volume>
    requires id in volumes
  {
    volumes[id := Volume(volumes[id].handle, true)]
  }

  /** The deletion of an environment takes two writes at most; the pass after them returns, and by
      then the volume is marked and the finalizer is gone.  No pass creates anything. */
  lemma DeletionEnds(s: Scene, id: string)
    requires s.env.deleting && s.env.Id() != ""
    ensures var f := Pass(s, id);
            && f.scene == s.(volumes := f.scene.volumes, env := s.env.(finalizers := f.scene.env.finalizers))
            && f.scene.volumes == (if VolumeStands(s) then Marked(s.volumes, s.env.Id()) else s.volumes)
            && f.scene.env.finalizers
               == (if VolumeStands(s) then s.env.finalizers else Without(s.env.finalizers, ENV_FINALIZER))
            && (f.returned <==> !VolumeStands(s) && !s.env.Protected()) && (f.returned ==> f.scene == s)
    ensures var t := Pass(Pass(s, id).scene, id).scene;
            !VolumeStands(t) && !t.env.Protected() && t.volumes.Keys == s.volumes.Keys && Pass(t, id).returned
  {
    WithoutMembers(s.env.finalizers, ENV_FINALIZER);
    var t := Pass(s, id).scene;
    assert t.volumes.Keys == s.volumes.Keys;
    WithoutMembers(t.env.finalizers, ENV_FINALIZER);
    var u := Pass(t, id).scene;
    assert !VolumeStands(u);
    WithoutMembers(u.env.finalizers, ENV_FINALIZER);
  }

  // ---- Exactly when ----

  lemma FixStaysHopeless(s: Scene, need: Need, id: string)
    requires Hopeless(s)
    ensures Hopeless(Fix(s, need, id))
  {
  }

  lemma {:induction false} WalkStaysHopeless(s: Scene, i: nat, id: string)
    requires Hopeless(s) && i <= NEEDS
    ensures Hopeless(Walk(s, i, id).scene)
    decreases NEEDS - i
  {
    if i < NEEDS {
      FixStaysHopeless(s, At(i), id);
      WalkStaysHopeless(if Met(s, At(i)) then s else Fix(s, At(i), id), i + 1, id);
    }
  }

  lemma {:induction false} PassesStayHopeless(s: Scene, ids: seq<string>)
    requires Hopeless(s)
    ensures Hopeless(Passes(s, ids))
    decreases |ids|
  {
    if ids != [] {
      WalkStaysHopeless(s, 0, ids[0]);
      PassesStayHopeless(Pass(s, ids[0]).scene, ids[1..]);
    }
  }

  lemma RestIsNotHopeless(s: Scene)
    requires AtRest(s)
    ensures !Hopeless(s)
  {
    assert Met(s, GitRef) && Met(s, Link) && Met(s, Proxy) && Met(s, Id);
    SyncedLabelsMeaning(s.app.value, s.env.labels, LABEL_PREFIX);
    assert HasPrefix(ENVIRONMENT_ID, LABEL_PREFIX) && HasPrefix(GIT_REF, LABEL_PREFIX);
  }

  ghost predicate RestsAfter(s: Scene, ids: seq<string>) {
    (forall k :: 0 <= k < |ids| ==> ids[k] != "") && AtRest(Passes(s, ids))
  }

  /** Passes come to rest exactly if the application exists and hands down neither an empty Id nor
      the hash of another git reference, nobody else controls the environment, and an existing
      ProxySQL Deployment has a container. */
  lemma RestsIff(s: Scene)
    requires !s.env.deleting && s.env.spec.Complete()
    ensures (exists ids :: RestsAfter(s, ids)) <==> !Hopeless(s)
  {
    if ids :| RestsAfter(s, ids) {
      RestIsNotHopeless(Passes(s, ids));
      if Hopeless(s) {
        PassesStayHopeless(s, ids);
      }
    }
    if !Hopeless(s) {
      var ids := seq(NEEDS + 1, _ => "x");
      PassesConverge(s, ids);
      assert RestsAfter(s, ids);
    }
  }
}
