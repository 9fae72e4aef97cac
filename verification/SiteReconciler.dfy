/** The site controller's methods as they are written: they read objects, change the copies and
    write them back (pkg/controller/site/site_controller.go, jobs.go, db.go).  `Reconcile` is
    proved to be the pass that the lifecycle results speak about. */
module SiteReconciler {
  import opened Options
  import opened SiteTypes
  import opened SharedObject
  import opened Finalizers
  import opened LabelSync
  import opened Cluster
  import opened Crons
  import opened SiteWorker
  import opened SitePass
  import opened SiteDeletion
  import opened SiteConvergence
  import opened SiteProgress

  /** Whether the pass goes on; if not, a new one is asked for or an error is returned. */
  datatype Outcome = Continue | Requeue | Failed

  datatype Routing = Stored | Unchanged | Crashed

  /** The part of a pass from `stage` on has come from `c` to `d`, and goes on at `next` or is over. */
  ghost predicate Follows(c: Cluster, n: string, site: Site, stage: Stage, ch: Choice, d: Cluster, o: Outcome,
                          next: Stage)
  {
    && c.Valid() && d.Valid()
    && if o.Continue? then Drive(c, n, site, stage, ch) == Drive(d, n, site, next, ch)
       else Drive(c, n, site, stage, ch).cluster == d && Drive(c, n, site, stage, ch).last != Return
  }

  lemma Goes(c: Cluster, n: string, site: Site, s1: Stage, ch: Choice, d: Cluster, s2: Stage, e: Cluster,
             o: Outcome, s3: Stage)
    requires Follows(c, n, site, s1, ch, d, Continue, s2) && Follows(d, n, site, s2, ch, e, o, s3)
    ensures Follows(c, n, site, s1, ch, e, o, s3)
  {
  }

  lemma FollowsOn(c: Cluster, n: string, site: Site, stage: Stage, ch: Choice, d: Cluster, next: Stage)
    requires c.Valid() && d.Valid() && Rank(next) > Rank(stage) && Advance(c, n, site, stage, ch) == Next(d, site, next)
    ensures Follows(c, n, site, stage, ch, d, Continue, next)
  {
    DriveOn(c, n, site, stage, ch, d, next);
  }

  lemma FollowsEnd(c: Cluster, n: string, site: Site, stage: Stage, ch: Choice, d: Cluster, o: Outcome, next: Stage)
    requires c.Valid() && d.Valid() && stage != Return && o != Continue && Advance(c, n, site, stage, ch) == End(d)
    ensures Follows(c, n, site, stage, ch, d, o, next)
  {
    DriveEnds(c, n, site, stage, ch, d);
  }

  // ---- The shared maps: a read and a write each ----

  lemma DomainsRead(c: Cluster, n: string, site: Site, ch: Choice)
    requires c.Valid()
    ensures match c.domains.Cached()
            case None => Follows(c, n, site, PublishDomains, ch, c, Failed, PublishCredentials)
            case Some(data) =>
              Follows(c, n, site, PublishDomains, ch, c, Continue,
                      if site.Id() in data && data[site.Id()] == DomainMapOf(n, site.spec) then PublishCredentials
                      else PublishDomainsWrite(Snapshot(c.domains.cache, data)))
  {
    var r := DoPublishDomains(c, n, site);
    assert Advance(c, n, site, PublishDomains, ch) == r;
    if c.domains.Cached().None? {
      FollowsEnd(c, n, site, PublishDomains, ch, c, Failed, PublishCredentials);
    } else {
      FollowsOn(c, n, site, PublishDomains, ch, c, r.worker.stage);
    }
  }

  lemma DomainsWritten(c: Cluster, n: string, site: Site, ch: Choice, held: Snapshot<Domains>)
    requires c.Valid()
    ensures match c.domains.Write(held, held.data[site.Id() := DomainMapOf(n, site.spec)])
            case Written(s) =>
              Follows(c, n, site, PublishDomainsWrite(held), ch, c.(domains := s), Requeue, PublishCredentials)
            case _ => Follows(c, n, site, PublishDomainsWrite(held), ch, c, Failed, PublishCredentials)
  {
    var r := DoPublishDomainsWrite(c, n, site, held);
    assert Advance(c, n, site, PublishDomainsWrite(held), ch) == r;
    FollowsEnd(c, n, site, PublishDomainsWrite(held), ch, r.cluster, Requeue, PublishCredentials);
    FollowsEnd(c, n, site, PublishDomainsWrite(held), ch, r.cluster, Failed, PublishCredentials);
  }

  lemma CredentialsRead(c: Cluster, n: string, site: Site, ch: Choice)
    requires c.Valid()
    ensures if n !in c.passwords || c.credentials.Cached().None?
            then Follows(c, n, site, PublishCredentials, ch, c, Failed, CreateDatabase)
            else
              var entry, data := DatabaseOf(n, c.passwords[n].password), c.credentials.Cached().value;
              Follows(c, n, site, PublishCredentials, ch, c, Continue,
                      if site.Id() in data && data[site.Id()] == entry then CreateDatabase
                      else PublishCredentialsWrite(Snapshot(c.credentials.cache, data), entry))
  {
    var r := DoPublishCredentials(c, n, site);
    assert Advance(c, n, site, PublishCredentials, ch) == r;
    if n !in c.passwords || c.credentials.Cached().None? {
      FollowsEnd(c, n, site, PublishCredentials, ch, c, Failed, CreateDatabase);
    } else {
      FollowsOn(c, n, site, PublishCredentials, ch, c, r.worker.stage);
    }
  }

  lemma CredentialsWritten(c: Cluster, n: string, site: Site, ch: Choice, held: Snapshot<Databases>, entry: Database)
    requires c.Valid()
    ensures match c.credentials.Write(held, held.data[site.Id() := entry])
            case Written(s) =>
              Follows(c, n, site, PublishCredentialsWrite(held, entry), ch,
                      c.(credentials := s), Requeue, CreateDatabase)
            case _ => Follows(c, n, site, PublishCredentialsWrite(held, entry), ch, c, Failed, CreateDatabase)
  {
    var r := DoPublishCredentialsWrite(c, site, held, entry);
    assert Advance(c, n, site, PublishCredentialsWrite(held, entry), ch) == r;
    FollowsEnd(c, n, site, PublishCredentialsWrite(held, entry), ch, r.cluster, Requeue, CreateDatabase);
    FollowsEnd(c, n, site, PublishCredentialsWrite(held, entry), ch, r.cluster, Failed, CreateDatabase);
  }

  /** How reconcileDomainMap ends. */
  ghost predicate DomainsEnd(c: Cluster, id: string, desired: DomainMap, d: Cluster, o: Outcome)
    requires c.Valid()
  {
    match c.domains.Cached()
    case None => d == c && o == Failed
    case Some(data) =>
      if id in data && data[id] == desired then d == c && o == Continue
      else
        match c.domains.Write(Snapshot(c.domains.cache, data), data[id := desired])
        case Written(s) => d == c.(domains := s) && o == Requeue
        case _ => d == c && o == Failed
  }

  lemma DomainsFollow(c: Cluster, n: string, site: Site, ch: Choice, d: Cluster, o: Outcome)
    requires c.Valid() && DomainsEnd(c, site.Id(), DomainMapOf(n, site.spec), d, o)
    ensures Follows(c, n, site, PublishDomains, ch, d, o, PublishCredentials)
    ensures o.Continue? ==> d == c
    ensures o.Requeue? ==> Published(d.domains, site.Id(), DomainMapOf(n, site.spec))
  {
    DomainsRead(c, n, site, ch);
    var cached := c.domains.Cached();
    if cached.Some? && o != Continue {
      var held := Snapshot(c.domains.cache, cached.value);
      DomainsWritten(c, n, site, ch, held);
      Goes(c, n, site, PublishDomains, ch, c, PublishDomainsWrite(held), d, o, PublishCredentials);
    }
  }

  /** How reconcileDomainDbMapSecret ends. */
  ghost predicate CredentialsEnd(c: Cluster, n: string, site: Site, d: Cluster, o: Outcome)
    requires c.Valid()
  {
    if n !in c.passwords || c.credentials.Cached().None? then d == c && o == Failed
    else
      var entry, data := DatabaseOf(n, c.passwords[n].password), c.credentials.Cached().value;
      if site.Id() in data && data[site.Id()] == entry then d == c && o == Continue
      else
        match c.credentials.Write(Snapshot(c.credentials.cache, data), data[site.Id() := entry])
        case Written(s) => d == c.(credentials := s) && o == Requeue
        case _ => d == c && o == Failed
  }

  lemma CredentialsFollow(c: Cluster, n: string, site: Site, ch: Choice, d: Cluster, o: Outcome)
    requires c.Valid() && CredentialsEnd(c, n, site, d, o)
    ensures Follows(c, n, site, PublishCredentials, ch, d, o, CreateDatabase)
    ensures o.Continue? ==> d == c && n in c.passwords
    ensures o.Requeue? ==>
              n in d.passwords && Published(d.credentials, site.Id(), DatabaseOf(n, d.passwords[n].password))
  {
    CredentialsRead(c, n, site, ch);
    if n in c.passwords && c.credentials.Cached().Some? && o != Continue {
      var entry := DatabaseOf(n, c.passwords[n].password);
      var held := Snapshot(c.credentials.cache, c.credentials.Cached().value);
      CredentialsWritten(c, n, site, ch, held, entry);
      Goes(c, n, site, PublishCredentials, ch, c, PublishCredentialsWrite(held, entry), d, o, CreateDatabase);
    }
  }

  lemma DomainsFinalRead(c: Cluster, n: string, site: Site, ch: Choice)
    requires c.Valid()
    ensures Follows(c, n, site, ForgetDomains, ch, c, Continue,
                    match c.domains.Cached()
                    case None => DropDatabase
                    case Some(data) => ForgetDomainsWrite(Snapshot(c.domains.cache, data)))
  {
    var r := DoForgetDomains(c, site);
    assert Advance(c, n, site, ForgetDomains, ch) == r;
    FollowsOn(c, n, site, ForgetDomains, ch, c, r.worker.stage);
  }

  lemma DomainsUnwritten(c: Cluster, n: string, site: Site, ch: Choice, held: Snapshot<Domains>)
    requires c.Valid()
    ensures match c.domains.Write(held, held.data - {site.Id()})
            case Written(s) =>
              Follows(c, n, site, ForgetDomainsWrite(held), ch, c.(domains := s), Continue, DropDatabase)
            case Missing => Follows(c, n, site, ForgetDomainsWrite(held), ch, c, Continue, DropDatabase)
            case Conflict => Follows(c, n, site, ForgetDomainsWrite(held), ch, c, Failed, DropDatabase)
  {
    var r := DoForgetDomainsWrite(c, site, held);
    assert Advance(c, n, site, ForgetDomainsWrite(held), ch) == r;
    if r.worker.Busy? {
      FollowsOn(c, n, site, ForgetDomainsWrite(held), ch, r.cluster, DropDatabase);
    } else {
      FollowsEnd(c, n, site, ForgetDomainsWrite(held), ch, c, Failed, DropDatabase);
    }
  }

  lemma CredentialsFinalRead(c: Cluster, n: string, site: Site, ch: Choice)
    requires c.Valid()
    ensures Follows(c, n, site, ForgetCredentials, ch, c, Continue,
                    match c.credentials.Cached()
                    case None => ForgetDomains
                    case Some(data) => ForgetCredentialsWrite(Snapshot(c.credentials.cache, data)))
  {
    var r := DoForgetCredentials(c, site);
    assert Advance(c, n, site, ForgetCredentials, ch) == r;
    FollowsOn(c, n, site, ForgetCredentials, ch, c, r.worker.stage);
  }

  lemma CredentialsUnwritten(c: Cluster, n: string, site: Site, ch: Choice, held: Snapshot<Databases>)
    requires c.Valid()
    ensures match c.credentials.Write(held, held.data - {site.Id()})
            case Written(s) =>
              Follows(c, n, site, ForgetCredentialsWrite(held), ch, c.(credentials := s), Continue, ForgetDomains)
            case Missing => Follows(c, n, site, ForgetCredentialsWrite(held), ch, c, Continue, ForgetDomains)
            case Conflict => Follows(c, n, site, ForgetCredentialsWrite(held), ch, c, Failed, ForgetDomains)
  {
    var r := DoForgetCredentialsWrite(c, site, held);
    assert Advance(c, n, site, ForgetCredentialsWrite(held), ch) == r;
    if r.worker.Busy? {
      FollowsOn(c, n, site, ForgetCredentialsWrite(held), ch, r.cluster, ForgetDomains);
    } else {
      FollowsEnd(c, n, site, ForgetCredentialsWrite(held), ch, c, Failed, ForgetDomains);
    }
  }

  /** How finalizeConfigMap and finalizeDomainDbMapSecret end. */
  ghost predicate UnwrittenEnd<V>(a: Shared<map<string, V>>, id: string, b: Shared<map<string, V>>, o: Outcome)
    requires a.Valid()
  {
    match a.Cached()
    case None => b == a && o == Continue
    case Some(data) =>
      match a.Write(Snapshot(a.cache, data), data - {id})
      case Written(s) => b == s && o == Continue
      case Missing => b == a && o == Continue
      case Conflict => b == a && o == Failed
  }

  lemma DomainsGoneFollow(c: Cluster, n: string, site: Site, ch: Choice, d: Cluster, o: Outcome)
    requires c.Valid() && d == c.(domains := d.domains) && UnwrittenEnd(c.domains, site.Id(), d.domains, o)
    ensures Follows(c, n, site, ForgetDomains, ch, d, o, DropDatabase)
  {
    DomainsFinalRead(c, n, site, ch);
    if c.domains.Cached().Some? {
      var held := Snapshot(c.domains.cache, c.domains.Cached().value);
      DomainsUnwritten(c, n, site, ch, held);
      Goes(c, n, site, ForgetDomains, ch, c, ForgetDomainsWrite(held), d, o, DropDatabase);
    }
  }

  lemma CredentialsGoneFollow(c: Cluster, n: string, site: Site, ch: Choice, d: Cluster, o: Outcome)
    requires c.Valid() && d == c.(credentials := d.credentials)
    requires UnwrittenEnd(c.credentials, site.Id(), d.credentials, o)
    ensures Follows(c, n, site, ForgetCredentials, ch, d, o, ForgetDomains)
  {
    CredentialsFinalRead(c, n, site, ch);
    if c.credentials.Cached().Some? {
      var held := Snapshot(c.credentials.cache, c.credentials.Cached().value);
      CredentialsUnwritten(c, n, site, ch, held);
      Goes(c, n, site, ForgetCredentials, ch, c, ForgetCredentialsWrite(held), d, o, ForgetDomains);
    }
  }

  // ---- The stages that have no equation yet ----

  lemma ReleasesPassword(c: Cluster, n: string, site: Site, ch: Choice)
    requires c.Valid()
    ensures Advance(c, n, site, ReleasePassword, ch) == DoReleasePassword(c, n, site)
    ensures Advance(c, n, site, ReleaseSite, ch) == DoReleaseSite(c, n, site)
  {
  }

  lemma SkipsDatabase(c: Cluster, n: string, site: Site, ch: Choice)
    requires c.Valid() && (n !in c.passwords || ch.sqlFails)
    ensures Advance(c, n, site, CreateDatabase, ch) == Next(c, site, SyncCrons)
  {
  }

  /** The databases after reconcileDatabase: all or nothing, as long as every statement fares alike. */
  function Stocked(c: Cluster, n: string, ch: Choice): (d: Cluster)
    ensures d.sites == c.sites && (c.Valid() ==> d.Valid())
  {
    if n in c.passwords && !ch.sqlFails then WithDatabase(c, n) else c
  }

  lemma DriveStocks(c: Cluster, n: string, site: Site, ch: Choice)
    requires c.Valid()
    ensures Drive(c, n, site, CreateDatabase, ch) == Drive(Stocked(c, n, ch), n, site, SyncCrons, ch)
  {
    if n in c.passwords && !ch.sqlFails {
      DriveCreateDatabase(c, n, site, ch);
    } else {
      SkipsDatabase(c, n, site, ch);
      DriveOn(c, n, site, CreateDatabase, ch, c, SyncCrons);
    }
  }

  lemma CompletionIs(c: Cluster, n: string, ch: Choice)
    requires c.Valid() && n in c.sites
    ensures Drive(c, n, c.sites[n], CreateDatabase, ch) == Finished(Stocked(c, n, ch), n, ch)
  {
    DriveStocks(c, n, c.sites[n], ch);
    DriveSyncCrons(Stocked(c, n, ch), n, ch);
  }

  lemma PasswordFollows(c: Cluster, n: string, site: Site, ch: Choice)
    requires c.Valid()
    ensures var o := if n in c.passwords && !c.passwords[n].Held() then Failed else Continue;
            Follows(c, n, site, ReleasePassword, ch, PasswordFreed(c, n), o, ReleaseSite)
  {
    ReleasesPassword(c, n, site, ch);
    if n in c.passwords && !c.passwords[n].Held() {
      DriveEnds(c, n, site, ReleasePassword, ch, c);
    } else {
      DriveOn(c, n, site, ReleasePassword, ch, PasswordFreed(c, n), ReleaseSite);
    }
  }

  // ---- CronJobs, jobs and the Ingress ----

  lemma FirstUnwantedIs(crons: seq<CronJob>, id: string, specs: seq<CronSpec>, i: nat)
    requires i <= |crons| && (i < |crons| ==> Unwanted(crons[i], id, specs))
    requires forall k :: 0 <= k < i ==> !Unwanted(crons[k], id, specs)
    ensures FirstUnwanted(crons, id, specs) == i
  {
  }

  lemma FirstUnsettledIs(crons: seq<CronJob>, site: Site, specs: seq<CronSpec>, i: nat)
    requires i <= |specs| && (i < |specs| ==> !Settled(crons, CustomerCronJob(site, specs[i])))
    requires forall k :: 0 <= k < i ==> Settled(crons, CustomerCronJob(site, specs[k]))
    ensures FirstUnsettled(crons, site, specs) == i
  {
  }

  lemma EnsuredSettled(crons: seq<CronJob>, wanted: CronJob)
    requires Settled(crons, wanted)
    ensures Ensured(crons, wanted) == crons
  {
  }

  lemma JobTaken(site: Site, jobs: set<string>, key: string, ch: Choice)
    requires key in site.annotations && (key == RUN_JOB || key == RUN_ROOT_JOB) && CommandOf(site, key, ch).Some?
    ensures Pending(site.(annotations := site.annotations - {key})) == Pending(site) - 1
    ensures JobStartedAs(site, jobs, jobs + {JobName(key, CommandOf(site, key, ch).value, ch.digest)}, key, ch)
  {
  }

  /** Every annotation but the two wanted ones. */
  ghost predicate KeepsForeign(before: map<string, string>, after: map<string, string>) {
    forall k :: k !in {"certmanager.k8s.io/cluster-issuer", "kubernetes.io/ingress.class"} ==>
      (k in before <==> k in after) && (k in before ==> after[k] == before[k])
  }

  /** The new Job is named after its kind and the digest of the command in the annotation. */
  predicate JobStartedAs(site: Site, before: set<string>, after: set<string>, key: string, ch: Choice) {
    && key in site.annotations && ch.parse(site.annotations[key]).Some?
    && key in {"fnresources.acquia.io/runJob", "fnresources.acquia.io/runRootJob"}
    && var name := ch.digest(ch.parse(site.annotations[key]).value);
       after == before + {if key == "fnresources.acquia.io/runJob" then "customer-job-" + name else "root-job-" + name}
  }

  /** The first of the two job labels in the order. */
  predicate FirstLabel(order: seq<string>, i: nat) {
    && i < |order| && order[i] in {"fnresources.acquia.io/runJob", "fnresources.acquia.io/runRootJob"}
    && forall k :: 0 <= k < i ==> order[k] !in {"fnresources.acquia.io/runJob", "fnresources.acquia.io/runRootJob"}
  }

  /** Database, user and password are there; a ProxySQL row is added unless the user has one. */
  predicate Grants(c: Cluster, d: Cluster, n: string, password: string) {
    var db := DatabaseName(n);
    && d == c.(databases := c.databases + {db}, users := d.users, proxyUsers := d.proxyUsers)
    && d.users == c.users[db := Some(password)]
    && d.proxyUsers == if db in c.proxyUsers then c.proxyUsers else c.proxyUsers[db := password]
  }

  /** A new password Secret: held, not marked, with the given password. */
  predicate Held(secret: PasswordSecret, password: string) {
    secret.finalizers == ["sites.fnresources.acquia.com/password"] && !secret.deleting && secret.password == password
  }

  /** The Site as it was sent, with a new version; or it is gone, if it was marked and nothing holds it. */
  predicate StoredAs(c: Cluster, n: string, site: Site) {
    if site.deleting && site.finalizers == [] then n !in c.sites
    else n in c.sites && c.sites[n] == site.(version := c.sites[n].version)
  }

  /** The order in which Go visits the annotations decides which job comes first. */
  function RootFirst(order: seq<string>): bool {
    if order == [] || order[0] == RUN_JOB then false
    else order[0] == RUN_ROOT_JOB || RootFirst(order[1..])
  }

  // ---- Parts of a pass ----

  lemma DatabaseDropFollows(c: Cluster, n: string, site: Site, ch: Choice)
    requires c.Valid()
    ensures if n in c.passwords then Follows(c, n, site, DropDatabase, ch, Dropped(c, n, ch), Continue, ReleasePassword)
            else Follows(c, n, site, DropDatabase, ch, c, Failed, ReleasePassword)
  {
    DriveDropsDatabase(c, n, site, ch);
  }

  class SiteReconciler {
    const name: string
    var cluster: Cluster
    var site: Site

    constructor (name: string, cluster: Cluster, site: Site)
      ensures this.name == name && this.cluster == cluster && this.site == site
    {
      this.name := name;
      this.cluster := cluster;
      this.site := site;
    }

    /** The copy of the Site is the stored one. */
    predicate Reading()
      reads this
    {
      cluster.Valid() && name in cluster.sites && cluster.sites[name] == site
    }

    /** Update: the API server compares the resource version. */
    method UpdateSite() returns (outcome: Outcome)
      requires cluster.Valid()
      modifies this`cluster
      ensures cluster == EndWith(old(cluster), name, site).cluster && cluster.Valid()
      ensures outcome == if old(cluster).UpdateSite(name, site).Some? then Requeue else Failed
      ensures outcome.Requeue? <==> name in old(cluster).sites && old(cluster).sites[name].version == site.version
      ensures !outcome.Requeue? ==> cluster == old(cluster)
      ensures outcome.Requeue? ==> StoredAs(cluster, name, site)
    {
      if name in cluster.sites && cluster.sites[name].version == site.version {
        cluster := cluster.PutSite(name, site);
        return Requeue;
      }
      return Failed;
    }

    method AddFinalizer(ghost ch: Choice) returns (outcome: Outcome)
      requires Reading()
      modifies this
      ensures Follows(old(cluster), name, old(site), Protect, ch, cluster, outcome, Link)
      ensures outcome.Continue? <==> old(site).Protected()
      ensures outcome.Requeue? ==>
                StoredAs(cluster, name, old(site).(finalizers := old(site).finalizers + [SITE_FINALIZER]))
      ensures outcome.Continue? ==> Reading() && site == old(site) && cluster == old(cluster)
    {
      DriveProtect(cluster, name, ch);
      if SITE_FINALIZER in site.finalizers {
        return Continue;
      }
      site := site.(finalizers := site.finalizers + [SITE_FINALIZER]);
      outcome := UpdateSite();
    }

    method LinkToEnvironment(ghost ch: Choice) returns (outcome: Outcome)
      requires Reading()
      modifies this
      ensures Follows(old(cluster), name, old(site), Link, ch, cluster, outcome, MakePassword)
      ensures outcome.Continue? <==> LinkedTo(old(cluster), old(site))
      ensures old(site).spec.environment in old(cluster).parents && !outcome.Continue? ==>
                var env, was := old(site).spec.environment, old(site);
                if was.controller !in {"", env} then outcome.Failed? && cluster == old(cluster)
                else
                  var labels := SyncedLabels(old(cluster).parents[env], was.labels, "fnresources.acquia.io/");
                  outcome.Requeue? && StoredAs(cluster, name, was.(labels := labels, controller := env))
      ensures outcome.Continue? ==> Reading() && site == old(site) && cluster == old(cluster)
    {
      if site.spec.environment !in cluster.parents {
        DriveEnds(cluster, name, site, Link, ch, cluster);
        return Requeue;
      }
      DriveLink(cluster, name, ch);
      var parent := cluster.parents[site.spec.environment];
      if site.controller != "" && site.controller != site.spec.environment {
        return Failed;
      }
      var linked := site.(labels := SyncedLabels(parent, site.labels, LABEL_PREFIX),
                          controller := site.spec.environment);
      if linked == site {
        return Continue;
      }
      site := linked;
      outcome := UpdateSite();
    }

    method ReconcileDbPwdSecret(ch: Choice) returns (outcome: Outcome)
      requires Reading()
      modifies this`cluster
      ensures Follows(old(cluster), name, site, MakePassword, ch, cluster, outcome, PublishDomains)
      ensures outcome.Continue? <==> name in old(cluster).passwords
      ensures outcome.Continue? ==> cluster == old(cluster)
      ensures outcome.Requeue? ==> name in cluster.passwords && Held(cluster.passwords[name], ch.password)
    {
      DriveMakePassword(cluster, name, site, ch);
      if name in cluster.passwords {
        return Continue;
      }
      var secret := PasswordSecret([PASSWORD_FINALIZER], false, ch.password);
      cluster := cluster.(passwords := cluster.passwords[name := secret]);
      return Requeue;
    }

    /** The entry under `id`, read, compared and written. */
    method PublishDomainMap(id: string, desired: DomainMap) returns (outcome: Outcome)
      requires Reading()
      modifies this`cluster
      ensures DomainsEnd(old(cluster), id, desired, cluster, outcome)
    {
      var cached := cluster.domains.Cached();
      if cached.None? {
        return Failed;
      }
      var held := Snapshot(cluster.domains.cache, cached.value);
      var data := cached.value;
      if id in data && data[id] == desired {
        return Continue;
      }
      data := data[id := desired];
      match cluster.domains.Write(held, data)
      case Written(s) =>
        cluster := cluster.(domains := s);
        return Requeue;
      case _ => return Failed;
    }

    method ReconcileDomainMap(ghost ch: Choice) returns (outcome: Outcome)
      requires Reading()
      modifies this`cluster
      ensures Follows(old(cluster), name, site, PublishDomains, ch, cluster, outcome, PublishCredentials)
      ensures outcome.Continue? ==> cluster == old(cluster)
      ensures outcome.Requeue? ==>
                site.Id() in cluster.LiveDomains() && MapsDomains(cluster.LiveDomains()[site.Id()], name, site.spec)
    {
      var desired := BuildDomainMap(name, site.spec);
      outcome := PublishDomainMap(site.Id(), desired);
      DomainsFollow(old(cluster), name, site, ch, cluster, outcome);
    }

    method GetPassword() returns (password: Option<string>)
      ensures password == if name in cluster.passwords then Some(cluster.passwords[name].password) else None
    {
      if name !in cluster.passwords {
        return None;
      }
      return Some(cluster.passwords[name].password);
    }

    method GetDB() returns (db: Option<Database>)
      ensures db == if name in cluster.passwords then Some(DatabaseOf(name, cluster.passwords[name].password)) else None
      ensures db.Some? <==> name in cluster.passwords
      ensures db.Some? ==> Credits(db.value, name, cluster.passwords[name].password)
    {
      var password := GetPassword();
      if password.None? {
        return None;
      }
      return Some(Database(PROXYSQL_HOST, PROXYSQL_PORT, DatabaseName(name), DatabaseName(name), password.value));
    }

    method ReconcileDomainDbMapSecret(ghost ch: Choice) returns (outcome: Outcome)
      requires Reading()
      modifies this`cluster
      ensures Follows(old(cluster), name, site, PublishCredentials, ch, cluster, outcome, CreateDatabase)
      ensures outcome.Continue? ==> cluster == old(cluster) && name in cluster.passwords
      ensures outcome.Requeue? ==>
                && name in cluster.passwords && site.Id() in cluster.LiveCredentials()
                && Credits(cluster.LiveCredentials()[site.Id()], name, cluster.passwords[name].password)
    {
      var db := GetDB();
      var cached := cluster.credentials.Cached();
      outcome := Failed;
      if db.Some? && cached.Some? {
        var held := Snapshot(cluster.credentials.cache, cached.value);
        var data := cached.value;
        if site.Id() in data && data[site.Id()] == db.value {
          outcome := Continue;
        } else {
          data := data[site.Id() := db.value];
          var r := cluster.credentials.Write(held, data);
          if r.Written? {
            cluster := cluster.(credentials := r.shared);
            outcome := Requeue;
          }
        }
      }
      CredentialsFollow(old(cluster), name, site, ch, cluster, outcome);
    }

    method FinalizeDomainDbMapSecret(ghost ch: Choice) returns (outcome: Outcome)
      requires Reading()
      modifies this`cluster
      ensures Follows(old(cluster), name, site, ForgetCredentials, ch, cluster, outcome, ForgetDomains)
      ensures cluster == old(cluster).(credentials := cluster.credentials)
      ensures outcome.Continue? && old(cluster).credentials.Cached().Some? ==> site.Id() !in cluster.LiveCredentials()
    {
      var cached := cluster.credentials.Cached();
      outcome := Continue;
      if cached.Some? {
        var held := Snapshot(cluster.credentials.cache, cached.value);
        match cluster.credentials.Write(held, held.data - {site.Id()})
        case Written(s) => cluster := cluster.(credentials := s);
        case Missing =>
        case Conflict => outcome := Failed;
      }
      CredentialsGoneFollow(old(cluster), name, site, ch, cluster, outcome);
    }

    method FinalizeConfigMap(ghost ch: Choice) returns (outcome: Outcome)
      requires Reading()
      modifies this`cluster
      ensures Follows(old(cluster), name, site, ForgetDomains, ch, cluster, outcome, DropDatabase)
      ensures cluster == old(cluster).(domains := cluster.domains)
      ensures outcome.Continue? && old(cluster).domains.Cached().Some? ==> site.Id() !in cluster.LiveDomains()
    {
      var cached := cluster.domains.Cached();
      outcome := Continue;
      if cached.Some? {
        var held := Snapshot(cluster.domains.cache, cached.value);
        match cluster.domains.Write(held, held.data - {site.Id()})
        case Written(s) => cluster := cluster.(domains := s);
        case Missing =>
        case Conflict => outcome := Failed;
      }
      DomainsGoneFollow(old(cluster), name, site, ch, cluster, outcome);
    }

    /** The statements in their order; an absent ProxySQL service and error 1045 are no failures. */
    method FinalizeDatabase(ch: Choice) returns (outcome: Outcome)
      requires Reading()
      modifies this`cluster
      ensures outcome == if name in old(cluster).passwords then Continue else Failed
      ensures cluster == if outcome.Continue? then Dropped(old(cluster), name, ch) else old(cluster)
      ensures outcome.Continue? ==>
                var row, db := old(cluster).proxyService && !ch.sqlFails, DatabaseName(name);
                cluster == old(cluster).(
                  databases := old(cluster).databases - {db}, users := old(cluster).users - {db},
                  proxyUsers := if row then old(cluster).proxyUsers - {db} else old(cluster).proxyUsers,
                  orphaned := if row then old(cluster).orphaned - {name} else old(cluster).orphaned)
    {
      var db := GetDB();
      if db.None? {
        return Failed;
      }
      cluster := cluster.(databases := cluster.databases - {db.value.name});
      cluster := cluster.(users := cluster.users - {db.value.user});
      if cluster.proxyService && !ch.sqlFails {
        cluster := cluster.(proxyUsers := cluster.proxyUsers - {db.value.user}, orphaned := cluster.orphaned - {name});
      }
      return Continue;
    }

    method FinalizeDbPwdSecret() returns (outcome: Outcome)
      requires Reading()
      modifies this`cluster
      ensures outcome == if name in old(cluster).passwords && !old(cluster).PasswordHeld(name) then Failed else Continue
      ensures cluster == PasswordFreed(old(cluster), name)
      ensures outcome.Continue? && name in cluster.passwords ==>
                var before, after := old(cluster).passwords[name], cluster.passwords[name];
                after == before.(finalizers := Without(before.finalizers, PASSWORD_FINALIZER))
      ensures outcome.Continue? && name in old(cluster).passwords ==>
                var before := old(cluster).passwords[name];
                name !in cluster.passwords <==> before.deleting && Without(before.finalizers, PASSWORD_FINALIZER) == []
    {
      if name !in cluster.passwords {
        return Continue;
      }
      var secret := cluster.passwords[name];
      if PASSWORD_FINALIZER !in secret.finalizers {
        return Failed;
      }
      secret := secret.(finalizers := Without(secret.finalizers, PASSWORD_FINALIZER));
      cluster := cluster.PutPassword(name, secret);
      return Continue;
    }

    method RemoveFinalizer(ghost ch: Choice) returns (outcome: Outcome)
      requires Reading()
      modifies this
      ensures Follows(old(cluster), name, old(site), ReleaseSite, ch, cluster, outcome, Link)
      ensures outcome == if old(site).Protected() then Requeue else Continue
      ensures outcome.Continue? ==> cluster == old(cluster) && site == old(site)
      ensures outcome.Requeue? ==> !site.Protected()
    {
      ReleasesPassword(cluster, name, site, ch);
      if !site.Protected() {
        return Continue;
      }
      WithoutIsFree(site.finalizers, SITE_FINALIZER);
      site := site.(finalizers := Without(site.finalizers, SITE_FINALIZER));
      outcome := UpdateSite();
      DriveEnds(old(cluster), name, old(site), ReleaseSite, ch, cluster);
    }

    /** The SQL statements, once both connections are open. */
    method Provision(db: Database)
      requires Reading() && cluster.proxyService && GetsDatabase(db)
      modifies this`cluster
      ensures cluster == WithDatabase(old(cluster), name)
    {
      cluster := cluster.(databases := cluster.databases + {db.name});
      if db.user !in cluster.users {
        cluster := cluster.(users := cluster.users[db.user := None]);
      }
      cluster := cluster.(users := cluster.users[db.user := Some(db.password)]);
      if db.user !in cluster.proxyUsers {
        cluster := cluster.(proxyUsers := cluster.proxyUsers[db.user := db.password]);
      }
      assert cluster.users == old(cluster.users)[db.user := Some(db.password)];
    }

    predicate GetsDatabase(db: Database)
      reads this
    {
      name in cluster.passwords && db == DatabaseOf(name, cluster.passwords[name].password)
    }

    /** The deferred Close calls turn every error after the connection into success. */
    method ReconcileDatabase(ch: Choice) returns (outcome: Outcome)
      requires Reading()
      modifies this`cluster
      ensures outcome.Continue?
      ensures cluster == Stocked(old(cluster), name, ch)
      ensures if name in old(cluster).passwords && old(cluster).proxyService && !ch.sqlFails
              then Grants(old(cluster), cluster, name, old(cluster).passwords[name].password)
              else cluster == old(cluster)
    {
      var db := GetDB();
      if cluster.proxyService && db.Some? && !ch.sqlFails {
        Provision(db.value);
      }
      return Continue;
    }

    method DeleteUnwantedCrons() returns (outcome: Outcome)
      requires Reading()
      modifies this`cluster
      ensures var crons := old(cluster).crons; var u := FirstUnwanted(crons, site.Id(), site.spec.crons);
              if u == |crons| then outcome == Continue && cluster == old(cluster)
              else outcome == Requeue && cluster == old(cluster).(crons := crons[..u] + crons[u + 1..])
    {
      var desired, crons, id := site.spec.crons, cluster.crons, site.Id();
      var seen: set<string> := {};
      for i := 0 to |desired|
        invariant forall x :: x in seen <==> exists k :: 0 <= k < i && desired[k].name == x
      {
        seen := seen + {desired[i].name};
      }
      for i := 0 to |crons|
        invariant forall k :: 0 <= k < i ==> !Unwanted(crons[k], id, desired)
      {
        if Owned(crons[i], id) && crons[i].name !in seen {
          FirstUnwantedIs(crons, id, desired, i);
          cluster := cluster.(crons := crons[..i] + crons[i + 1..]);
          return Requeue;
        }
      }
      FirstUnwantedIs(crons, id, desired, |crons|);
      return Continue;
    }

    /** controllerutil.CreateOrUpdate with the mutation of a CronJob. */
    method CreateOrUpdateCron(wanted: CronJob) returns (changed: bool)
      requires cluster.Valid()
      modifies this`cluster
      ensures changed <==> !Settled(old(cluster).crons, wanted)
      ensures cluster == old(cluster).(crons := Ensured(old(cluster).crons, wanted))
    {
      var crons, i := cluster.crons, 0;
      while i < |crons| && crons[i].name != wanted.name
        invariant 0 <= i <= |crons|
        invariant forall k :: 0 <= k < i ==> crons[k].name != wanted.name
      {
        i := i + 1;
      }
      assert i == Find(crons, wanted.name);
      if i == |crons| {
        cluster := cluster.(crons := crons + [wanted]);
        return true;
      }
      var existing := crons[i];
      existing := existing.(labels := wanted.labels);
      existing := existing.(suspend := wanted.suspend);
      existing := existing.(schedule := wanted.schedule);
      existing := existing.(concurrencyPolicy := wanted.concurrencyPolicy);
      existing := existing.(command := wanted.command);
      existing := existing.(startingDeadlineSeconds := wanted.startingDeadlineSeconds);
      changed := existing != crons[i];
      cluster := cluster.(crons := crons[i := existing]);
    }

    method ReconcileCronJobs() returns (outcome: Outcome)
      requires Reading()
      modifies this`cluster
      ensures outcome == if CronsSettled(old(cluster).crons, site) then Continue else Requeue
      ensures cluster == old(cluster).(crons := CronPass(old(cluster).crons, site))
    {
      outcome := DeleteUnwantedCrons();
      if outcome.Requeue? {
        return;
      }
      var specs := site.spec.crons;
      ghost var crons := cluster.crons;
      for i := 0 to |specs|
        invariant cluster == old(cluster)
        invariant forall k :: 0 <= k < i ==> Settled(crons, CustomerCronJob(site, specs[k]))
      {
        var changed := CreateOrUpdateCron(CustomerCronJob(site, specs[i]));
        if changed {
          FirstUnsettledIs(crons, site, specs, i);
          return Requeue;
        }
        EnsuredSettled(crons, CustomerCronJob(site, specs[i]));
      }
      FirstUnsettledIs(crons, site, specs, |specs|);
    }

    /** The first annotation, in the order of the map, that is the label of a job. */
    method GetNextJobBuilder(annotations: map<string, string>, order: seq<string>) returns (key: Option<string>)
      requires forall k :: k in order <==> k in annotations
      ensures key == NextJob(annotations, RootFirst(order))
      ensures key.None? <==> RUN_JOB !in annotations && RUN_ROOT_JOB !in annotations
      ensures key.Some? ==> exists i :: 0 <= i < |order| && order[i] == key.value && FirstLabel(order, i)
    {
      var builders := [RUN_JOB, RUN_ROOT_JOB];
      for i := 0 to |order|
        invariant forall k :: 0 <= k < i ==> order[k] != RUN_JOB && order[k] != RUN_ROOT_JOB
        invariant RootFirst(order) == RootFirst(order[i..])
      {
        assert order[i..][0] == order[i] && order[i..][1..] == order[i + 1..];
        for j := 0 to |builders|
          invariant forall k :: 0 <= k < j ==> order[i] != builders[k]
        {
          if order[i] == builders[j] {
            assert FirstLabel(order, i);
            return Some(order[i]);
          }
        }
        assert order[i] != builders[0] && order[i] != builders[1];
      }
      return None;
    }

    /** The Job for one annotation, and the annotation's removal. */
    method StartJob(key: string, ch: Choice) returns (outcome: Outcome)
      requires Reading() && key in site.annotations && (key == RUN_JOB || key == RUN_ROOT_JOB)
      modifies this
      ensures !outcome.Continue? && cluster == JobStarted(old(cluster), name, key, ch).cluster
      ensures outcome.Requeue? ==> JobStartedAs(old(site), old(cluster).jobs, cluster.jobs, key, ch)
      ensures outcome.Requeue? ==>
                StoredAs(cluster, name, old(site).(annotations := old(site).annotations - {key}))
      ensures outcome.Requeue? ==> |cluster.jobs| == |old(cluster).jobs| + 1 && Pending(site) == Pending(old(site)) - 1
    {
      var command := ch.parse(site.annotations[key]);
      if command.None? || command.value == [] {
        return Failed;
      }
      var job := JobName(key, command.value, ch.digest);
      if job in cluster.jobs {
        return Failed;
      }
      JobTaken(site, cluster.jobs, key, ch);
      cluster := cluster.(jobs := cluster.jobs + {job});
      site := site.(annotations := site.annotations - {key});
      outcome := UpdateSite();
    }

    method ReconcileJobs(ch: Choice, order: seq<string>) returns (outcome: Outcome)
      requires Reading() && (forall k :: k in order <==> k in site.annotations) && ch.rootFirst == RootFirst(order)
      requires CronsSettled(cluster.crons, site)
      modifies this
      ensures outcome.Continue? <==> NextJob(old(site).annotations, ch.rootFirst).None?
      ensures outcome.Continue? ==> cluster == old(cluster) && site == old(site)
      ensures !outcome.Continue? ==>
                var key := NextJob(old(site).annotations, ch.rootFirst).value;
                && cluster == JobStarted(old(cluster), name, key, ch).cluster
                && (outcome.Requeue? ==> JobStartedAs(old(site), old(cluster).jobs, cluster.jobs, key, ch))
      ensures outcome.Requeue? ==> Pending(site) == Pending(old(site)) - 1 && |cluster.jobs| == |old(cluster).jobs| + 1
    {
      var key := GetNextJobBuilder(site.annotations, order);
      if key.None? {
        return Continue;
      }
      outcome := StartJob(key.value, ch);
    }

    /** What updateIngress makes of an existing Ingress. */
    method SyncIngress(found: Ingress) returns (ing: Ingress, update: bool, crashed: bool)
      ensures crashed <==> found.annotations == map[]
      ensures !crashed ==> ing == RoutedIngress(name, site, Some(found)) && (update <==> ing != found)
    {
      ing := found;
      var rules := BuildIngressRules(site.spec);
      var tls, desired := IngressTlsOf(name, site.spec), IngressAnnotations(site.spec);
      assert CERT_ISSUER in desired;
      var annotations;
      annotations, update, crashed := EnsureAnnotations(ing.annotations, desired);
      if crashed {
        return;
      }
      ing := ing.(annotations := annotations);
      if ing.rules != rules {
        update := true;
        ing := ing.(rules := rules);
      }
      if ing.tls != tls {
        update := true;
        ing := ing.(tls := tls);
      }
    }

    /** An absent Ingress is created; an existing one is written only if something differs. */
    method UpdateIngress() returns (outcome: Routing)
      requires Reading()
      modifies this`cluster
      ensures outcome == Crashed <==> RoutingCrashes(old(cluster), name)
      ensures outcome != Crashed ==> cluster == WithIngress(old(cluster), name)
      ensures outcome == Stored <==> cluster != old(cluster)
      ensures outcome != Crashed ==> name in cluster.ingresses && Routed(cluster.ingresses[name], name, site.spec)
      ensures outcome != Crashed ==>
                cluster.ingresses[name].labels
                == if name in old(cluster).ingresses then old(cluster).ingresses[name].labels else site.ChildLabels()
      ensures outcome != Crashed && name in old(cluster).ingresses ==>
                KeepsForeign(old(cluster).ingresses[name].annotations, cluster.ingresses[name].annotations)
    {
      RoutedIsRouted(name, site, if name in cluster.ingresses then Some(cluster.ingresses[name]) else None);
      if name !in cluster.ingresses {
        var rules := BuildIngressRules(site.spec);
        var ing := Ingress(site.ChildLabels(), rules, IngressTlsOf(name, site.spec), IngressAnnotations(site.spec));
        assert ing == RoutedIngress(name, site, None);
        cluster := cluster.(ingresses := cluster.ingresses[name := ing]);
        return Stored;
      }
      var ing, update, crashed := SyncIngress(cluster.ingresses[name]);
      if crashed {
        return Crashed;
      }
      if update {
        assert cluster.ingresses[name] != ing;
        cluster := cluster.(ingresses := cluster.ingresses[name := ing]);
        return Stored;
      }
      assert cluster.ingresses[name := ing] == cluster.ingresses;
      return Unchanged;
    }

    /** The deletion block up to the two finalizers. */
    method CleanUp(ch: Choice) returns (outcome: Outcome)
      requires Reading()
      modifies this`cluster
      ensures Follows(old(cluster), name, site, ForgetCredentials, ch, cluster, outcome, ReleasePassword)
      ensures Reading()
    {
      ghost var c := cluster;
      outcome := FinalizeDomainDbMapSecret(ch);
      if !outcome.Continue? {
        return;
      }
      ghost var d := cluster;
      outcome := FinalizeConfigMap(ch);
      Goes(c, name, site, ForgetCredentials, ch, d, ForgetDomains, cluster, outcome, DropDatabase);
      if !outcome.Continue? {
        return;
      }
      d := cluster;
      DatabaseDropFollows(d, name, site, ch);
      outcome := FinalizeDatabase(ch);
      Goes(c, name, site, ForgetCredentials, ch, d, DropDatabase, cluster, outcome, ReleasePassword);
    }

    /** The deletion block; it can fall through to the link. */
    method Finalize(ch: Choice) returns (outcome: Outcome)
      requires Reading()
      modifies this
      ensures Follows(old(cluster), name, old(site), ForgetCredentials, ch, cluster, outcome, Link)
      ensures outcome.Continue? ==> Reading() && site == old(site)
    {
      ghost var c := cluster;
      outcome := CleanUp(ch);
      if !outcome.Continue? {
        return;
      }
      ghost var d := cluster;
      PasswordFollows(d, name, site, ch);
      outcome := FinalizeDbPwdSecret();
      Goes(c, name, site, ForgetCredentials, ch, d, ReleasePassword, cluster, outcome, ReleaseSite);
      if !outcome.Continue? {
        return;
      }
      d := cluster;
      outcome := RemoveFinalizer(ch);
      Goes(c, name, old(site), ForgetCredentials, ch, d, ReleaseSite, cluster, outcome, Link);
    }

    /** From the link to the shared maps. */
    method Publish(ch: Choice) returns (outcome: Outcome)
      requires Reading()
      modifies this
      ensures Follows(old(cluster), name, old(site), Link, ch, cluster, outcome, CreateDatabase)
      ensures outcome.Continue? ==> Reading() && site == old(site) && cluster == old(cluster)
    {
      ghost var c := cluster;
      outcome := LinkToEnvironment(ch);
      if !outcome.Continue? {
        return;
      }
      outcome := ReconcileDbPwdSecret(ch);
      Goes(c, name, site, Link, ch, c, MakePassword, cluster, outcome, PublishDomains);
      if !outcome.Continue? {
        return;
      }
      outcome := ReconcileDomainMap(ch);
      Goes(c, name, site, Link, ch, c, PublishDomains, cluster, outcome, PublishCredentials);
      if !outcome.Continue? {
        return;
      }
      outcome := ReconcileDomainDbMapSecret(ch);
      Goes(c, name, site, Link, ch, c, PublishCredentials, cluster, outcome, CreateDatabase);
    }

    /** The CronJobs, a job and the Ingress. */
    method Finish(ch: Choice, order: seq<string>) returns (returned: bool)
      requires Reading() && (forall k :: k in order <==> k in site.annotations) && ch.rootFirst == RootFirst(order)
      modifies this
      ensures cluster.Valid() && cluster == Finished(old(cluster), name, ch).cluster
      ensures returned <==> Finished(old(cluster), name, ch).last == Return
    {
      var outcome := ReconcileCronJobs();
      if !outcome.Continue? {
        return false;
      }
      assert cluster == old(cluster);
      outcome := ReconcileJobs(ch, order);
      if !outcome.Continue? {
        return false;
      }
      var routing := UpdateIngress();
      return routing != Crashed;
    }

    /** From the database to the end. */
    method Complete(ch: Choice, order: seq<string>) returns (returned: bool)
      requires Reading() && (forall k :: k in order <==> k in site.annotations) && ch.rootFirst == RootFirst(order)
      modifies this
      ensures cluster.Valid() && cluster == Drive(old(cluster), name, old(site), CreateDatabase, ch).cluster
      ensures returned <==> Drive(old(cluster), name, old(site), CreateDatabase, ch).last == Return
    {
      CompletionIs(cluster, name, ch);
      var outcome := ReconcileDatabase(ch);
      returned := Finish(ch, order);
    }

    /** A Site without an Id gets one. */
    method SetId(ch: Choice)
      requires Reading() && site.Id() == "" && ch.id != "" && ch.id !in cluster.ids
      modifies this
      ensures cluster.Valid()
      ensures Drive(old(cluster), name, old(site), AssignId, ch) == SitePass.Finish(cluster, AssignId)
      ensures site.Id() == ch.id && cluster.ids == old(cluster).ids[ch.id := name]
      ensures StoredAs(cluster, name, old(site).(labels := old(site).labels[SITE_ID := ch.id]))
    {
      ghost var c, s := cluster, site;
      site := site.WithId(ch.id);
      var outcome := UpdateSite();
      cluster := cluster.(ids := cluster.ids[ch.id := name]);
      DriveEnds(c, name, s, AssignId, ch, cluster);
    }

    /** The first stage of a pass over a Site with an Id. */
    function Start(): Stage
      reads this
    {
      if site.deleting then ForgetCredentials else Protect
    }

    /** Up to the databases. */
    method Prepare(ch: Choice) returns (outcome: Outcome)
      requires Reading()
      modifies this
      ensures Follows(old(cluster), name, old(site), old(Start()), ch, cluster, outcome, CreateDatabase)
      ensures outcome.Continue? ==> Reading() && site == old(site)
    {
      ghost var c := cluster;
      if site.deleting {
        outcome := Finalize(ch);
      } else {
        outcome := AddFinalizer(ch);
      }
      if !outcome.Continue? {
        return;
      }
      ghost var d := cluster;
      outcome := Publish(ch);
      Goes(c, name, old(site), old(Start()), ch, d, Link, cluster, outcome, CreateDatabase);
    }

    /** The Site is read; the informer caches of the shared objects may lag behind. */
    method Reconcile(ch: Choice, order: seq<string>) returns (returned: bool)
      requires cluster.Valid() && ch.id != "" && ch.id !in cluster.ids
      requires name in cluster.sites ==> forall k :: k in order <==> k in cluster.sites[name].annotations
      requires ch.rootFirst == RootFirst(order)
      modifies this
      ensures cluster == PassAsRead(old(cluster), name, ch)
      ensures returned <==> ReturnsAsRead(old(cluster), name, ch)
    {
      if name !in cluster.sites {
        return true;
      }
      site := cluster.sites[name];
      if site.Id() == "" {
        SetId(ch);
        return false;
      }
      var outcome := Prepare(ch);
      if !outcome.Continue? {
        return false;
      }
      returned := Complete(ch, order);
    }
  }
}
