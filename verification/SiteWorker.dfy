/** One reconcile pass of a Site, call by call (pkg/controller/site/site_controller.go).

    A pass copies the Site object once and then walks through stages; each stage is at most one
    write to the API server or the databases, so that a pass can be interleaved with anything else
    between two of its stages.  `Advance` is one stage. */
module SiteWorker {
  import opened Options
  import opened SiteTypes
  import opened SharedObject
  import opened Finalizers
  import opened LabelSync
  import opened Cluster
  import opened Crons

  datatype Stage =
    | AssignId
      // a Site marked for deletion
    | ForgetCredentials | ForgetCredentialsWrite(heldDb: Snapshot<Databases>)
    | ForgetDomains | ForgetDomainsWrite(heldDomains: Snapshot<Domains>)
    | DropDatabase | DropUser | DropProxyUser
    | ReleasePassword | ReleaseSite
      // any other Site
    | Protect | Link | MakePassword
    | PublishDomains | PublishDomainsWrite(heldDomains: Snapshot<Domains>)
    | PublishCredentials | PublishCredentialsWrite(heldDb: Snapshot<Databases>, entry: Database)
    | CreateDatabase | CreateUser(password: string) | SetPassword(password: string) | AddProxyUser(password: string)
    | SyncCrons | StartJob | ClearJob(annotation: string) | Route | Return

  /** A worker that is busy carries the copy of the Site that it read when the pass began. */
  datatype Worker = Idle | Busy(site: Site, stage: Stage)

  /** What the surroundings decide: fresh identifiers, the order of a Go map, whether an SQL
      statement fails, and the YAML and hash libraries. */
  datatype Choice = Choice(
    id: string, password: string, rootFirst: bool, sqlFails: bool,
    parse: string -> Option<seq<string>>, digest: seq<string> -> string)

  datatype Step = Step(cluster: Cluster, worker: Worker)

  const RUN_JOB := "fnresources.acquia.io/runJob"
  const RUN_ROOT_JOB := "fnresources.acquia.io/runRootJob"

  /** The next annotation that asks for a job; Go visits the annotations in any order. */
  function NextJob(annotations: map<string, string>, rootFirst: bool): Option<string> {
    if RUN_ROOT_JOB in annotations && (rootFirst || RUN_JOB !in annotations) then Some(RUN_ROOT_JOB)
    else if RUN_JOB in annotations then Some(RUN_JOB)
    else None
  }

  function JobName(annotation: string, command: seq<string>, digest: seq<string> -> string): string {
    (if annotation == RUN_ROOT_JOB then "root-job-" else "customer-job-") + digest(command)
  }

  /** linkToEnvironment: None if another environment controls the Site. */
  function LinkedSite(site: Site, parent: Labels): Option<Site> {
    if site.controller != "" && site.controller != site.spec.environment then None
    else Some(site.(labels := SyncedLabels(parent, site.labels, LABEL_PREFIX), controller := site.spec.environment))
  }

  /** The Ingress after updateIngress. */
  function RoutedIngress(n: string, site: Site, existing: Option<Ingress>): Ingress {
    var rules, tls, annotations := IngressRules(site.spec), IngressTlsOf(n, site.spec), IngressAnnotations(site.spec);
    match existing
    case None => Ingress(site.ChildLabels(), rules, tls, annotations)
    case Some(found) => Ingress(found.labels, rules, tls, found.annotations + annotations)
  }

  /** The start of a pass. */
  function Begin(c: Cluster, n: string): Worker {
    if n !in c.sites then Idle
    else
      var site := c.sites[n];
      if site.Id() == "" then Busy(site, AssignId)
      else if site.deleting then Busy(site, ForgetCredentials)
      else Busy(site, Protect)
  }

  /** A write to the Site ends the pass, whether it is accepted or not. */
  function EndWith(c: Cluster, n: string, site: Site): Step {
    var stored := c.UpdateSite(n, site);
    Step(if stored.Some? then stored.value else c, Idle)
  }

  /** The pass goes on with the next stage, or it ends. */
  function Next(c: Cluster, site: Site, stage: Stage): Step {
    Step(c, Busy(site, stage))
  }

  function End(c: Cluster): Step {
    Step(c, Idle)
  }

  /** A pass only moves forward, with the same copy of the Site. */
  predicate MovesOn(r: Step, site: Site, rank: nat) {
    r.cluster.Valid() && (r.worker.Busy? ==> r.worker.site == site && Rank(r.worker.stage) > rank)
  }

  /** A Site without an Id gets a fresh one. */
  function DoAssignId(c: Cluster, n: string, site: Site, id: string): (r: Step)
    requires c.Valid()
    ensures MovesOn(r, site, 1)
  {
    var stored := c.UpdateSite(n, site.WithId(id));
    if id == "" || id in c.ids || stored.None? then End(c)
    else End(stored.value.(ids := c.ids[id := n]))
  }

  // ---- Deletion ----

  /** finalizeDomainDbMapSecret: read; an absent Secret needs no write. */
  function DoForgetCredentials(c: Cluster, site: Site): (r: Step)
    requires c.Valid()
    ensures MovesOn(r, site, 2)
  {
    match c.credentials.Cached()
    case None => Next(c, site, ForgetDomains)
    case Some(data) => Next(c, site, ForgetCredentialsWrite(Snapshot(c.credentials.cache, data)))
  }

  function DoForgetCredentialsWrite(c: Cluster, site: Site, held: Snapshot<Databases>): (r: Step)
    requires c.Valid()
    ensures MovesOn(r, site, 3)
  {
    match c.credentials.Write(held, held.data - {site.Id()})
    case Written(s) => Next(c.(credentials := s), site, ForgetDomains)
    case Missing => Next(c, site, ForgetDomains)
    case Conflict => End(c)
  }

  /** finalizeConfigMap, in the same way. */
  function DoForgetDomains(c: Cluster, site: Site): (r: Step)
    requires c.Valid()
    ensures MovesOn(r, site, 4)
  {
    match c.domains.Cached()
    case None => Next(c, site, DropDatabase)
    case Some(data) => Next(c, site, ForgetDomainsWrite(Snapshot(c.domains.cache, data)))
  }

  function DoForgetDomainsWrite(c: Cluster, site: Site, held: Snapshot<Domains>): (r: Step)
    requires c.Valid()
    ensures MovesOn(r, site, 5)
  {
    match c.domains.Write(held, held.data - {site.Id()})
    case Written(s) => Next(c.(domains := s), site, DropDatabase)
    case Missing => Next(c, site, DropDatabase)
    case Conflict => End(c)
  }

  /** finalizeDatabase reads the password Secret first and fails without it. */
  function DoDropDatabase(c: Cluster, n: string, site: Site): (r: Step)
    requires c.Valid()
    ensures MovesOn(r, site, 6)
  {
    if n !in c.passwords then End(c)
    else Next(c.(databases := c.databases - {DatabaseName(n)}), site, DropUser)
  }

  function DoDropUser(c: Cluster, n: string, site: Site): (r: Step)
    requires c.Valid()
    ensures MovesOn(r, site, 7)
  {
    Next(c.(users := c.users - {DatabaseName(n)}), site, DropProxyUser)
  }

  /** An absent ProxySQL service and error 1045 both count as success. */
  function DoDropProxyUser(c: Cluster, n: string, site: Site, ignoredError: bool): (r: Step)
    requires c.Valid()
    ensures MovesOn(r, site, 8)
  {
    if !c.proxyService || ignoredError then Next(c, site, ReleasePassword)
    else Next(c.(proxyUsers := c.proxyUsers - {DatabaseName(n)}, orphaned := c.orphaned - {n}), site, ReleasePassword)
  }

  /** finalizeDbPwdSecret fails on a Secret that has lost the finalizer already. */
  function DoReleasePassword(c: Cluster, n: string, site: Site): (r: Step)
    requires c.Valid()
    ensures MovesOn(r, site, 9)
  {
    if n !in c.passwords then Next(c, site, ReleaseSite)
    else if !c.passwords[n].Held() then End(c)
    else
      var secret := c.passwords[n];
      Next(c.PutPassword(n, secret.(finalizers := Without(secret.finalizers, PASSWORD_FINALIZER))), site, ReleaseSite)
  }

  /** Without the finalizer the code falls through to the stages that provision a Site. */
  function DoReleaseSite(c: Cluster, n: string, site: Site): (r: Step)
    requires c.Valid()
    ensures MovesOn(r, site, 10)
  {
    if !site.Protected() then Next(c, site, Link)
    else EndWith(c, n, site.(finalizers := Without(site.finalizers, SITE_FINALIZER)))
  }

  // ---- Provisioning ----

  function DoProtect(c: Cluster, n: string, site: Site): (r: Step)
    requires c.Valid()
    ensures MovesOn(r, site, 11)
  {
    if site.Protected() then Next(c, site, Link)
    else EndWith(c, n, site.(finalizers := With(site.finalizers, SITE_FINALIZER)))
  }

  function DoLink(c: Cluster, n: string, site: Site): (r: Step)
    requires c.Valid()
    ensures MovesOn(r, site, 12)
  {
    if site.spec.environment !in c.parents then End(c)
    else
      var next := LinkedSite(site, c.parents[site.spec.environment]);
      if next.None? then End(c)
      else if next.value != site then EndWith(c, n, next.value)
      else Next(c, site, MakePassword)
  }

  function DoMakePassword(c: Cluster, n: string, site: Site, password: string): (r: Step)
    requires c.Valid()
    ensures MovesOn(r, site, 13)
  {
    if n in c.passwords then Next(c, site, PublishDomains)
    else End(c.(passwords := c.passwords[n := PasswordSecret([PASSWORD_FINALIZER], false, password)]))
  }

  /** reconcileDomainMap: an up-to-date entry needs no write; an absent ConfigMap is an error. */
  function DoPublishDomains(c: Cluster, n: string, site: Site): (r: Step)
    requires c.Valid()
    ensures MovesOn(r, site, 14)
  {
    match c.domains.Cached()
    case None => End(c)
    case Some(data) =>
      if site.Id() in data && data[site.Id()] == DomainMapOf(n, site.spec) then Next(c, site, PublishCredentials)
      else Next(c, site, PublishDomainsWrite(Snapshot(c.domains.cache, data)))
  }

  function DoPublishDomainsWrite(c: Cluster, n: string, site: Site, held: Snapshot<Domains>): (r: Step)
    requires c.Valid()
    ensures MovesOn(r, site, 15)
  {
    var r := c.domains.Write(held, held.data[site.Id() := DomainMapOf(n, site.spec)]);
    End(if r.Written? then c.(domains := r.shared) else c)
  }

  /** reconcileDomainDbMapSecret, in the same way, with the password read first. */
  function DoPublishCredentials(c: Cluster, n: string, site: Site): (r: Step)
    requires c.Valid()
    ensures MovesOn(r, site, 16)
  {
    if n !in c.passwords || c.credentials.Cached().None? then End(c)
    else
      var entry, data := DatabaseOf(n, c.passwords[n].password), c.credentials.Cached().value;
      if site.Id() in data && data[site.Id()] == entry then Next(c, site, CreateDatabase)
      else Next(c, site, PublishCredentialsWrite(Snapshot(c.credentials.cache, data), entry))
  }

  function DoPublishCredentialsWrite(c: Cluster, site: Site, held: Snapshot<Databases>, entry: Database): (r: Step)
    requires c.Valid()
    ensures MovesOn(r, site, 17)
  {
    var r := c.credentials.Write(held, held.data[site.Id() := entry]);
    End(if r.Written? then c.(credentials := r.shared) else c)
  }

  /** reconcileDatabase: the deferred Close calls overwrite the error, so that a failed statement
      and an absent ProxySQL service or password continue with the CronJobs. */
  function DoCreateDatabase(c: Cluster, n: string, site: Site, fails: bool): (r: Step)
    requires c.Valid()
    ensures MovesOn(r, site, 18)
  {
    if !c.proxyService || n !in c.passwords || fails then Next(c, site, SyncCrons)
    else Next(c.(databases := c.databases + {DatabaseName(n)}), site, CreateUser(c.passwords[n].password))
  }

  function DoCreateUser(c: Cluster, n: string, site: Site, password: string, fails: bool): (r: Step)
    requires c.Valid()
    ensures MovesOn(r, site, 19)
  {
    var db := DatabaseName(n);
    if fails then Next(c, site, SyncCrons)
    else Next(c.(users := if db in c.users then c.users else c.users[db := None]), site, SetPassword(password))
  }

  function DoSetPassword(c: Cluster, n: string, site: Site, password: string, fails: bool): (r: Step)
    requires c.Valid()
    ensures MovesOn(r, site, 20)
  {
    var db := DatabaseName(n);
    if fails || db !in c.users then Next(c, site, SyncCrons)
    else Next(c.(users := c.users[db := Some(password)]), site, AddProxyUser(password))
  }

  /** ProxySQL refuses a second row of the same user, and the refusal is ignored. */
  function DoAddProxyUser(c: Cluster, n: string, site: Site, password: string, fails: bool): (r: Step)
    requires c.Valid()
    ensures MovesOn(r, site, 21)
  {
    var db := DatabaseName(n);
    if fails || db in c.proxyUsers then Next(c, site, SyncCrons)
    else Next(c.(proxyUsers := c.proxyUsers[db := password]), site, SyncCrons)
  }

  function DoSyncCrons(c: Cluster, site: Site): (r: Step)
    requires c.Valid()
    ensures MovesOn(r, site, 22)
  {
    if CronsSettled(c.crons, site) then Next(c, site, StartJob)
    else End(c.(crons := CronPass(c.crons, site)))
  }

  /** reconcileJobs: an unreadable command, or a Job of the same name, is an error. */
  function DoStartJob(c: Cluster, site: Site, ch: Choice): (r: Step)
    requires c.Valid()
    ensures MovesOn(r, site, 23)
  {
    var key := NextJob(site.annotations, ch.rootFirst);
    if key.None? then Next(c, site, Route)
    else
      var command := ch.parse(site.annotations[key.value]);
      if command.None? || command.value == [] then End(c)
      else
        var name := JobName(key.value, command.value, ch.digest);
        if name in c.jobs then End(c)
        else Next(c.(jobs := c.jobs + {name}), site, ClearJob(key.value))
  }

  function DoClearJob(c: Cluster, n: string, site: Site, annotation: string): (r: Step)
    requires c.Valid()
    ensures MovesOn(r, site, 24)
  {
    EndWith(c, n, site.(annotations := site.annotations - {annotation}))
  }

  /** An existing Ingress without annotations has a nil map of them, and the code writes into it. */
  predicate RoutingCrashes(c: Cluster, n: string) {
    n in c.ingresses && c.ingresses[n].annotations == map[]
  }

  /** updateIngress */
  function DoRoute(c: Cluster, n: string, site: Site): (r: Step)
    requires c.Valid()
    ensures MovesOn(r, site, 25)
  {
    var existing := if n in c.ingresses then Some(c.ingresses[n]) else None;
    if RoutingCrashes(c, n) then End(c)
    else Next(c.(ingresses := c.ingresses[n := RoutedIngress(n, site, existing)]), site, Return)
  }

  /** One stage of tearing a Site down. */
  function TearDown(c: Cluster, n: string, site: Site, stage: Stage, ch: Choice): (r: Step)
    requires c.Valid() && TearsDown(stage)
    ensures MovesOn(r, site, Rank(stage))
  {
    match stage
    case ForgetCredentials => DoForgetCredentials(c, site)
    case ForgetCredentialsWrite(held) => DoForgetCredentialsWrite(c, site, held)
    case ForgetDomains => DoForgetDomains(c, site)
    case ForgetDomainsWrite(held) => DoForgetDomainsWrite(c, site, held)
    case DropDatabase => DoDropDatabase(c, n, site)
    case DropUser => DoDropUser(c, n, site)
    case DropProxyUser => DoDropProxyUser(c, n, site, ch.sqlFails)
    case ReleasePassword => DoReleasePassword(c, n, site)
    case ReleaseSite => DoReleaseSite(c, n, site)
  }

  /** One stage up to the shared domain maps. */
  function Provision(c: Cluster, n: string, site: Site, stage: Stage, ch: Choice): (r: Step)
    requires c.Valid() && 11 <= Rank(stage) <= 17
    ensures MovesOn(r, site, Rank(stage))
  {
    match stage
    case Protect => DoProtect(c, n, site)
    case Link => DoLink(c, n, site)
    case MakePassword => DoMakePassword(c, n, site, ch.password)
    case PublishDomains => DoPublishDomains(c, n, site)
    case PublishDomainsWrite(held) => DoPublishDomainsWrite(c, n, site, held)
    case PublishCredentials => DoPublishCredentials(c, n, site)
    case PublishCredentialsWrite(held, entry) => DoPublishCredentialsWrite(c, site, held, entry)
  }

  /** One stage from the database on. */
  function Complete(c: Cluster, n: string, site: Site, stage: Stage, ch: Choice): (r: Step)
    requires c.Valid() && Rank(stage) >= 18
    ensures MovesOn(r, site, Rank(stage))
  {
    match stage
    case CreateDatabase => DoCreateDatabase(c, n, site, ch.sqlFails)
    case CreateUser(pw) => DoCreateUser(c, n, site, pw, ch.sqlFails)
    case SetPassword(pw) => DoSetPassword(c, n, site, pw, ch.sqlFails)
    case AddProxyUser(pw) => DoAddProxyUser(c, n, site, pw, ch.sqlFails)
    case SyncCrons => DoSyncCrons(c, site)
    case StartJob => DoStartJob(c, site, ch)
    case ClearJob(key) => DoClearJob(c, n, site, key)
    case Route => DoRoute(c, n, site)
    case Return => End(c)
  }

  /** One stage of the pass of site `n` whose copy of the Site is `site`. */
  function Advance(c: Cluster, n: string, site: Site, stage: Stage, ch: Choice): (r: Step)
    requires c.Valid()
    ensures MovesOn(r, site, Rank(stage))
  {
    if stage == AssignId then DoAssignId(c, n, site, ch.id)
    else if TearsDown(stage) then TearDown(c, n, site, stage, ch)
    else if Rank(stage) <= 17 then Provision(c, n, site, stage, ch)
    else Complete(c, n, site, stage, ch)
  }

  /** Stages that tear a Site down. */
  predicate TearsDown(stage: Stage) {
    2 <= Rank(stage) <= 10
  }

  /** Stages behind the finalizer, which create what the Site needs. */
  predicate Provisions(stage: Stage) {
    Rank(stage) >= 12
  }

  /** The place of a stage in the pass. */
  function Rank(stage: Stage): nat {
    match stage
    case AssignId => 1
    case ForgetCredentials => 2 case ForgetCredentialsWrite(_) => 3
    case ForgetDomains => 4 case ForgetDomainsWrite(_) => 5
    case DropDatabase => 6 case DropUser => 7 case DropProxyUser => 8
    case ReleasePassword => 9 case ReleaseSite => 10
    case Protect => 11 case Link => 12 case MakePassword => 13
    case PublishDomains => 14 case PublishDomainsWrite(_) => 15
    case PublishCredentials => 16 case PublishCredentialsWrite(_, _) => 17
    case CreateDatabase => 18 case CreateUser(_) => 19 case SetPassword(_) => 20 case AddProxyUser(_) => 21
    case SyncCrons => 22 case StartJob => 23 case ClearJob(_) => 24 case Route => 25 case Return => 26
  }
}
