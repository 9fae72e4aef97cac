/** Repeated passes over a Site come to rest: each pass that asks for another one has used up part
    of a budget, and a pass that does not leaves nothing to do. */
module SiteConvergence {
  import opened Options
  import opened SiteTypes
  import opened SharedObject
  import opened Finalizers
  import opened Cluster
  import opened Crons
  import opened SiteWorker
  import opened SitePass

  // ---- One pass, as one change ----

  /** The entry of one Id in a shared object, and the object after it is written with current reads. */
  predicate Published<V(==)>(a: Shared<map<string, V>>, id: string, v: V)
    requires a.Valid()
  {
    a.Live().Some? && id in a.Live().value && a.Live().value[id] == v
  }

  function Publish<V(==)>(a: Shared<map<string, V>>, id: string, v: V): (b: Shared<map<string, V>>)
    requires a.Valid() && a.Live().Some?
    ensures b.Valid() && Published(b, id, v) && b.cache == a.cache
  {
    a.Write(Snapshot(|a.log| - 1, a.Live().value), a.Live().value[id := v]).shared
  }

  predicate LinkedTo(c: Cluster, site: Site) {
    site.spec.environment in c.parents && LinkedSite(site, c.parents[site.spec.environment]) == Some(site)
  }

  /** The first of the six things that a pass writes before it turns to the databases; 6 if all are there. */
  function FirstUnmet(c: Cluster, n: string): (i: nat)
    requires c.Valid() && n in c.sites
    ensures i <= 6
  {
    var site := c.sites[n];
    if site.Id() == "" then 0
    else if !site.Protected() then 1
    else if !LinkedTo(c, site) then 2
    else if n !in c.passwords then 3
    else if !Published(c.domains, site.Id(), DomainMapOf(n, site.spec)) then 4
    else if !Published(c.credentials, site.Id(), DatabaseOf(n, c.passwords[n].password)) then 5
    else 6
  }

  /** The databases with everything that the site needs. */
  function WithDatabase(c: Cluster, n: string): Cluster
    requires n in c.passwords
  {
    var db, password := DatabaseName(n), c.passwords[n].password;
    if !c.proxyService then c
    else c.(databases := c.databases + {db}, users := c.users[db := Some(password)],
            proxyUsers := if db in c.proxyUsers then c.proxyUsers else c.proxyUsers[db := password])
  }

  function CommandOf(site: Site, key: string, ch: Choice): Option<seq<string>>
    requires key in site.annotations
  {
    ch.parse(site.annotations[key])
  }

  /** One job started, and its annotation taken away; an unreadable command and a job of the same name
      end the pass. */
  function JobStarted(c: Cluster, n: string, key: string, ch: Choice): (f: Finish)
    requires n in c.sites && key in c.sites[n].annotations
    ensures f.last != Return
  {
    var command := CommandOf(c.sites[n], key, ch);
    if command.None? || command.value == [] || JobName(key, command.value, ch.digest) in c.jobs
    then Finish(c, StartJob)
    else Finish(JobDone(c.(jobs := c.jobs + {JobName(key, command.value, ch.digest)}), n, key), ClearJob(key))
  }

  /** What comes after the databases. */
  function Finished(c: Cluster, n: string, ch: Choice): Finish
    requires n in c.sites
  {
    var site := c.sites[n];
    if !CronsSettled(c.crons, site) then Finish(c.(crons := CronPass(c.crons, site)), SyncCrons)
    else
      match NextJob(site.annotations, ch.rootFirst)
      case None => if RoutingCrashes(c, n) then Finish(c, Route) else Finish(WithIngress(c, n), Return)
      case Some(key) => JobStarted(c, n, key, ch)
  }

  function WithIngress(c: Cluster, n: string): Cluster
    requires n in c.sites
  {
    var existing := if n in c.ingresses then Some(c.ingresses[n]) else None;
    c.(ingresses := c.ingresses[n := RoutedIngress(n, c.sites[n], existing)])
  }

  function JobDone(c: Cluster, n: string, key: string): Cluster
    requires n in c.sites
  {
    c.PutSite(n, c.sites[n].(annotations := c.sites[n].annotations - {key}))
  }

  /** The six early writes. */
  function Started(c: Cluster, n: string, ch: Choice): Cluster
    requires c.Valid() && n in c.sites && FirstUnmet(c, n) < 6
    requires c.sites[n].spec.environment in c.parents && c.domains.Live().Some? && c.credentials.Live().Some?
  {
    var site := c.sites[n];
    match FirstUnmet(c, n)
    case 0 => c.PutSite(n, site.WithId(ch.id)).(ids := c.ids[ch.id := n])
    case 1 => c.PutSite(n, site.(finalizers := With(site.finalizers, SITE_FINALIZER)))
    case 2 =>
      var linked := LinkedSite(site, c.parents[site.spec.environment]);
      if linked.None? then c else c.PutSite(n, linked.value)
    case 3 => c.(passwords := c.passwords[n := PasswordSecret([PASSWORD_FINALIZER], false, ch.password)])
    case 4 => c.(domains := Publish(c.domains, site.Id(), DomainMapOf(n, site.spec)))
    case _ => c.(credentials := Publish(c.credentials, site.Id(), DatabaseOf(n, c.passwords[n].password)))
  }

  // ---- Drive, stage by stage ----

  lemma DriveProtect(c: Cluster, n: string, ch: Choice)
    requires c.Valid() && n in c.sites
    ensures var site := c.sites[n];
            Drive(c, n, site, Protect, ch)
            == if site.Protected() then Drive(c, n, site, Link, ch)
               else Finish(c.PutSite(n, site.(finalizers := With(site.finalizers, SITE_FINALIZER))), Protect)
  {
  }

  lemma LinkStage(c: Cluster, n: string, ch: Choice)
    requires c.Valid() && n in c.sites && c.sites[n].spec.environment in c.parents
    ensures var site := c.sites[n]; var linked := LinkedSite(site, c.parents[site.spec.environment]);
            Advance(c, n, site, Link, ch)
            == if linked.None? then End(c) else if linked.value != site then End(c.PutSite(n, linked.value))
               else Next(c, site, MakePassword)
  {
    assert Advance(c, n, c.sites[n], Link, ch) == DoLink(c, n, c.sites[n]);
  }

  lemma DriveLink(c: Cluster, n: string, ch: Choice)
    requires c.Valid() && n in c.sites && c.sites[n].spec.environment in c.parents
    ensures var site := c.sites[n]; var linked := LinkedSite(site, c.parents[site.spec.environment]);
            Drive(c, n, site, Link, ch)
            == if linked.None? then Finish(c, Link)
               else if linked.value != site then Finish(c.PutSite(n, linked.value), Link)
               else Drive(c, n, site, MakePassword, ch)
  {
    var site := c.sites[n];
    var linked := LinkedSite(site, c.parents[site.spec.environment]);
    LinkStage(c, n, ch);
    if linked == Some(site) {
      DriveOn(c, n, site, Link, ch, c, MakePassword);
    } else {
      DriveEnds(c, n, site, Link, ch, if linked.None? then c else c.PutSite(n, linked.value));
    }
  }

  lemma DriveMakePassword(c: Cluster, n: string, site: Site, ch: Choice)
    requires c.Valid()
    ensures Drive(c, n, site, MakePassword, ch)
            == if n in c.passwords then Drive(c, n, site, PublishDomains, ch)
               else
                 var secret := PasswordSecret([PASSWORD_FINALIZER], false, ch.password);
                 Finish(c.(passwords := c.passwords[n := secret]), MakePassword)
  {
    assert Advance(c, n, site, MakePassword, ch) == DoMakePassword(c, n, site, ch.password);
  }

  lemma PublishDomainsStage(c: Cluster, n: string, site: Site, ch: Choice)
    requires c.Valid() && c.domains.cache == |c.domains.log| - 1 && c.domains.Live().Some?
    ensures Advance(c, n, site, PublishDomains, ch)
            == if Published(c.domains, site.Id(), DomainMapOf(n, site.spec)) then Next(c, site, PublishCredentials)
               else Next(c, site, PublishDomainsWrite(Snapshot(c.domains.cache, c.domains.Live().value)))
  {
    assert Advance(c, n, site, PublishDomains, ch) == DoPublishDomains(c, n, site);
  }

  lemma PublishDomainsWriteStage(c: Cluster, n: string, site: Site, ch: Choice, held: Snapshot<Domains>)
    requires c.Valid() && held.position == |c.domains.log| - 1 && c.domains.Live() == Some(held.data)
    ensures Advance(c, n, site, PublishDomainsWrite(held), ch)
            == End(c.(domains := Publish(c.domains, site.Id(), DomainMapOf(n, site.spec))))
  {
    assert Advance(c, n, site, PublishDomainsWrite(held), ch) == DoPublishDomainsWrite(c, n, site, held);
  }

  lemma DrivePublishDomains(c: Cluster, n: string, site: Site, ch: Choice)
    requires c.Valid() && c.domains.Live().Some? && c.domains.cache == |c.domains.log| - 1
    ensures Drive(c, n, site, PublishDomains, ch)
            == if Published(c.domains, site.Id(), DomainMapOf(n, site.spec))
               then Drive(c, n, site, PublishCredentials, ch)
               else Finish(c.(domains := Publish(c.domains, site.Id(), DomainMapOf(n, site.spec))),
                           PublishDomainsWrite(Snapshot(c.domains.cache, c.domains.Live().value)))
  {
    PublishDomainsStage(c, n, site, ch);
    if Published(c.domains, site.Id(), DomainMapOf(n, site.spec)) {
      DriveOn(c, n, site, PublishDomains, ch, c, PublishCredentials);
    } else {
      var held := Snapshot(c.domains.cache, c.domains.Live().value);
      DriveOn(c, n, site, PublishDomains, ch, c, PublishDomainsWrite(held));
      PublishDomainsWriteStage(c, n, site, ch, held);
      DriveEnds(c, n, site, PublishDomainsWrite(held), ch,
                c.(domains := Publish(c.domains, site.Id(), DomainMapOf(n, site.spec))));
    }
  }

  lemma PublishCredentialsStage(c: Cluster, n: string, site: Site, ch: Choice)
    requires c.Valid() && c.credentials.cache == |c.credentials.log| - 1 && c.credentials.Live().Some?
             && n in c.passwords
    ensures var entry := DatabaseOf(n, c.passwords[n].password);
            Advance(c, n, site, PublishCredentials, ch)
            == if Published(c.credentials, site.Id(), entry) then Next(c, site, CreateDatabase)
               else
                 var held := Snapshot(c.credentials.cache, c.credentials.Live().value);
                 Next(c, site, PublishCredentialsWrite(held, entry))
  {
    assert Advance(c, n, site, PublishCredentials, ch) == DoPublishCredentials(c, n, site);
  }

  lemma PublishCredentialsWriteStage(c: Cluster, n: string, site: Site, ch: Choice, held: Snapshot<Databases>,
                                     entry: Database)
    requires c.Valid() && held.position == |c.credentials.log| - 1 && c.credentials.Live() == Some(held.data)
    ensures Advance(c, n, site, PublishCredentialsWrite(held, entry), ch)
            == End(c.(credentials := Publish(c.credentials, site.Id(), entry)))
  {
    assert Advance(c, n, site, PublishCredentialsWrite(held, entry), ch)
      == DoPublishCredentialsWrite(c, site, held, entry);
  }

  lemma DrivePublishCredentials(c: Cluster, n: string, site: Site, ch: Choice)
    requires c.Valid() && c.credentials.Live().Some? && c.credentials.cache == |c.credentials.log| - 1
             && n in c.passwords
    ensures var entry := DatabaseOf(n, c.passwords[n].password);
            Drive(c, n, site, PublishCredentials, ch)
            == if Published(c.credentials, site.Id(), entry) then Drive(c, n, site, CreateDatabase, ch)
               else Finish(c.(credentials := Publish(c.credentials, site.Id(), entry)),
                           PublishCredentialsWrite(Snapshot(c.credentials.cache, c.credentials.Live().value), entry))
  {
    var entry := DatabaseOf(n, c.passwords[n].password);
    PublishCredentialsStage(c, n, site, ch);
    if Published(c.credentials, site.Id(), entry) {
      DriveOn(c, n, site, PublishCredentials, ch, c, CreateDatabase);
    } else {
      var held := Snapshot(c.credentials.cache, c.credentials.Live().value);
      DriveOn(c, n, site, PublishCredentials, ch, c, PublishCredentialsWrite(held, entry));
      PublishCredentialsWriteStage(c, n, site, ch, held, entry);
      DriveEnds(c, n, site, PublishCredentialsWrite(held, entry), ch,
                c.(credentials := Publish(c.credentials, site.Id(), entry)));
    }
  }

  function WithUser(c: Cluster, n: string): (d: Cluster)
    ensures DatabaseName(n) in d.users && d == c.(users := d.users)
  {
    if DatabaseName(n) in c.users then c else c.(users := c.users[DatabaseName(n) := None])
  }

  lemma CreateUserStage(c: Cluster, n: string, site: Site, password: string, ch: Choice)
    requires c.Valid() && !ch.sqlFails
    ensures Advance(c, n, site, CreateUser(password), ch) == Next(WithUser(c, n), site, SetPassword(password))
  {
  }

  lemma SetPasswordStage(c: Cluster, n: string, site: Site, password: string, ch: Choice)
    requires c.Valid() && !ch.sqlFails && DatabaseName(n) in c.users
    ensures Advance(c, n, site, SetPassword(password), ch)
            == Next(c.(users := c.users[DatabaseName(n) := Some(password)]), site, AddProxyUser(password))
  {
  }

  lemma AddProxyUserStage(c: Cluster, n: string, site: Site, password: string, ch: Choice)
    requires c.Valid() && !ch.sqlFails
    ensures var db := DatabaseName(n);
            var p := if db in c.proxyUsers then c.proxyUsers else c.proxyUsers[db := password];
            Advance(c, n, site, AddProxyUser(password), ch) == Next(c.(proxyUsers := p), site, SyncCrons)
  {
  }

  lemma CreateDatabaseStage(c: Cluster, n: string, site: Site, ch: Choice)
    requires c.Valid() && !ch.sqlFails && n in c.passwords
    ensures Advance(c, n, site, CreateDatabase, ch)
            == if c.proxyService
               then Next(c.(databases := c.databases + {DatabaseName(n)}), site, CreateUser(c.passwords[n].password))
               else Next(c, site, SyncCrons)
  {
  }

  lemma DriveSetPassword(c: Cluster, n: string, site: Site, password: string, ch: Choice, d: Cluster)
    requires c.Valid() && !ch.sqlFails && DatabaseName(n) in c.users
    requires d == c.(users := c.users[DatabaseName(n) := Some(password)])
    ensures Drive(c, n, site, SetPassword(password), ch) == Drive(d, n, site, AddProxyUser(password), ch)
  {
    SetPasswordStage(c, n, site, password, ch);
    DriveOn(c, n, site, SetPassword(password), ch, d, AddProxyUser(password));
  }

  lemma DriveCreateUser(c: Cluster, n: string, site: Site, password: string, ch: Choice, d: Cluster)
    requires c.Valid() && !ch.sqlFails && d == c.(users := c.users[DatabaseName(n) := Some(password)])
    ensures Drive(c, n, site, CreateUser(password), ch) == Drive(d, n, site, AddProxyUser(password), ch)
  {
    var u := WithUser(c, n);
    assert u.users[DatabaseName(n) := Some(password)] == d.users;
    CreateUserStage(c, n, site, password, ch);
    DriveOn(c, n, site, CreateUser(password), ch, u, SetPassword(password));
    DriveSetPassword(u, n, site, password, ch, d);
  }

  lemma DriveCreateUsers(c: Cluster, n: string, site: Site, ch: Choice, b: Cluster, password: string)
    requires c.Valid() && !ch.sqlFails && n in c.passwords && c.proxyService && password == c.passwords[n].password
    requires b == c.(databases := c.databases + {DatabaseName(n)})
    ensures Drive(b, n, site, CreateUser(password), ch) == Drive(WithDatabase(c, n), n, site, SyncCrons, ch)
  {
    var u := b.(users := b.users[DatabaseName(n) := Some(password)]);
    DriveCreateUser(b, n, site, password, ch, u);
    AddProxyUserStage(u, n, site, password, ch);
    DriveOn(u, n, site, AddProxyUser(password), ch, WithDatabase(c, n), SyncCrons);
  }

  lemma DriveCreateDatabase(c: Cluster, n: string, site: Site, ch: Choice)
    requires c.Valid() && !ch.sqlFails && n in c.passwords
    ensures Drive(c, n, site, CreateDatabase, ch) == Drive(WithDatabase(c, n), n, site, SyncCrons, ch)
  {
    CreateDatabaseStage(c, n, site, ch);
    if c.proxyService {
      var password, b := c.passwords[n].password, c.(databases := c.databases + {DatabaseName(n)});
      DriveOn(c, n, site, CreateDatabase, ch, b, CreateUser(password));
      DriveCreateUsers(c, n, site, ch, b, password);
    } else {
      DriveOn(c, n, site, CreateDatabase, ch, c, SyncCrons);
    }
  }

  lemma NoJobStages(c: Cluster, n: string, site: Site, ch: Choice)
    requires c.Valid() && NextJob(site.annotations, ch.rootFirst).None? && n in c.sites && c.sites[n] == site
    ensures Drive(c, n, site, StartJob, ch)
            == if RoutingCrashes(c, n) then Finish(c, Route) else Finish(WithIngress(c, n), Return)
  {
    NoJobStage(c, n, site, ch);
    DriveOn(c, n, site, StartJob, ch, c, Route);
    RouteStage(c, n, site, ch);
    if RoutingCrashes(c, n) {
      DriveEnds(c, n, site, Route, ch, c);
    } else {
      DriveOn(c, n, site, Route, ch, WithIngress(c, n), Return);
      ReturnStage(WithIngress(c, n), n, site, ch);
      DriveEnds(WithIngress(c, n), n, site, Return, ch, WithIngress(c, n));
    }
  }

  lemma NoJobStage(c: Cluster, n: string, site: Site, ch: Choice)
    requires c.Valid() && NextJob(site.annotations, ch.rootFirst).None?
    ensures Advance(c, n, site, StartJob, ch) == Next(c, site, Route)
  {
    assert Advance(c, n, site, StartJob, ch) == DoStartJob(c, site, ch);
  }

  lemma RouteStage(c: Cluster, n: string, site: Site, ch: Choice)
    requires c.Valid() && n in c.sites && c.sites[n] == site
    ensures Advance(c, n, site, Route, ch)
            == if RoutingCrashes(c, n) then End(c) else Next(WithIngress(c, n), site, Return)
  {
    assert Advance(c, n, site, Route, ch) == DoRoute(c, n, site);
  }

  lemma ReturnStage(c: Cluster, n: string, site: Site, ch: Choice)
    requires c.Valid()
    ensures Advance(c, n, site, Return, ch) == End(c)
  {
  }

  lemma ClearJobStage(c: Cluster, n: string, key: string, ch: Choice)
    requires c.Valid() && n in c.sites
    ensures Drive(c, n, c.sites[n], ClearJob(key), ch) == Finish(JobDone(c, n, key), ClearJob(key))
  {
    assert Advance(c, n, c.sites[n], ClearJob(key), ch) == DoClearJob(c, n, c.sites[n], key);
  }

  lemma JobStages(c: Cluster, n: string, key: string, ch: Choice)
    requires c.Valid() && n in c.sites && NextJob(c.sites[n].annotations, ch.rootFirst) == Some(key)
    ensures var site := c.sites[n]; var command := CommandOf(site, key, ch);
            Drive(c, n, site, StartJob, ch)
            == if command.None? || command.value == [] || JobName(key, command.value, ch.digest) in c.jobs
               then Finish(c, StartJob)
               else Drive(c.(jobs := c.jobs + {JobName(key, command.value, ch.digest)}), n, site, ClearJob(key), ch)
  {
    assert Advance(c, n, c.sites[n], StartJob, ch) == DoStartJob(c, c.sites[n], ch);
  }

  lemma DriveStartJob(c: Cluster, n: string, ch: Choice)
    requires c.Valid() && n in c.sites && CronsSettled(c.crons, c.sites[n])
    ensures Drive(c, n, c.sites[n], StartJob, ch) == Finished(c, n, ch)
  {
    var site := c.sites[n];
    match NextJob(site.annotations, ch.rootFirst)
    case None => NoJobStages(c, n, site, ch);
    case Some(key) =>
      JobStages(c, n, key, ch);
      var command := CommandOf(site, key, ch);
      if command.Some? {
        ClearJobStage(c.(jobs := c.jobs + {JobName(key, command.value, ch.digest)}), n, key, ch);
      }
  }

  lemma SyncCronsStage(c: Cluster, n: string, site: Site, ch: Choice)
    requires c.Valid()
    ensures Advance(c, n, site, SyncCrons, ch)
            == if CronsSettled(c.crons, site) then Next(c, site, StartJob)
               else End(c.(crons := CronPass(c.crons, site)))
  {
  }

  lemma DriveSyncCrons(c: Cluster, n: string, ch: Choice)
    requires c.Valid() && n in c.sites
    ensures Drive(c, n, c.sites[n], SyncCrons, ch) == Finished(c, n, ch)
  {
    SyncCronsStage(c, n, c.sites[n], ch);
    if CronsSettled(c.crons, c.sites[n]) {
      DriveOn(c, n, c.sites[n], SyncCrons, ch, c, StartJob);
      DriveStartJob(c, n, ch);
    }
  }

  // ---- A whole pass ----

  /** The surroundings of a Site that is not being deleted: its environment exists and bears no site
      Id, nobody else controls it, and the environment controller has created the shared maps. */
  predicate Supported(c: Cluster, n: string) {
    && c.Valid() && n in c.sites
    && var site := c.sites[n];
       && !site.deleting && (site.controller == "" || site.controller == site.spec.environment)
       && site.spec.environment in c.parents && SITE_ID !in c.parents[site.spec.environment]
       && c.domains.Live().Some? && c.credentials.Live().Some?
  }

  function Served(c: Cluster, n: string, ch: Choice): Cluster
    requires Supported(c, n)
  {
    if FirstUnmet(c, n) < 6 then Started(c, n, ch) else Finished(WithDatabase(c, n), n, ch).cluster
  }

  predicate CurrentReads(c: Cluster) {
    c.Valid() && c.domains.cache == |c.domains.log| - 1 && c.credentials.cache == |c.credentials.log| - 1
  }

  /** Nothing is left to do but what every pass does. */
  predicate AtRest(c: Cluster, n: string)
    requires c.Valid() && n in c.sites
  {
    && FirstUnmet(c, n) == 6 && CronsSettled(c.crons, c.sites[n])
    && RUN_JOB !in c.sites[n].annotations && RUN_ROOT_JOB !in c.sites[n].annotations
  }

  /** A pass does what is left, and returns exactly if that is nothing and the Ingress can be written. */
  predicate Serves(f: Finish, c: Cluster, n: string, ch: Choice)
    requires Supported(c, n)
  {
    f.cluster == Served(c, n, ch) && (f.last == Return <==> AtRest(c, n) && !RoutingCrashes(c, n))
  }

  lemma FinishedReturns(c: Cluster, n: string, ch: Choice)
    requires n in c.sites
    ensures Finished(c, n, ch).last == Return <==>
              && CronsSettled(c.crons, c.sites[n]) && !RoutingCrashes(c, n)
              && RUN_JOB !in c.sites[n].annotations && RUN_ROOT_JOB !in c.sites[n].annotations
  {
  }

  lemma FinishedServes(c: Cluster, n: string, ch: Choice)
    requires Supported(c, n) && FirstUnmet(c, n) == 6
    ensures Serves(Finished(WithDatabase(c, n), n, ch), c, n, ch)
  {
    var e := WithDatabase(c, n);
    assert e == c.(databases := e.databases, users := e.users, proxyUsers := e.proxyUsers);
    FinishedReturns(e, n, ch);
  }

  lemma FromDatabases(c: Cluster, n: string, ch: Choice)
    requires Supported(c, n) && !ch.sqlFails && FirstUnmet(c, n) == 6
    ensures Serves(Drive(c, n, c.sites[n], CreateDatabase, ch), c, n, ch)
  {
    DriveCreateDatabase(c, n, c.sites[n], ch);
    DriveSyncCrons(WithDatabase(c, n), n, ch);
    FinishedServes(c, n, ch);
  }

  /** A pass that stops at the first unmet need. */
  lemma StoppedServes(f: Finish, c: Cluster, n: string, ch: Choice)
    requires Supported(c, n) && FirstUnmet(c, n) < 6 && f.cluster == Started(c, n, ch) && f.last != Return
    ensures Serves(f, c, n, ch)
  {
  }

  lemma FromCredentials(c: Cluster, n: string, ch: Choice)
    requires Supported(c, n) && CurrentReads(c) && !ch.sqlFails && FirstUnmet(c, n) >= 5
    ensures Serves(Drive(c, n, c.sites[n], PublishCredentials, ch), c, n, ch)
  {
    DrivePublishCredentials(c, n, c.sites[n], ch);
    if FirstUnmet(c, n) == 6 {
      FromDatabases(c, n, ch);
    } else {
      StoppedServes(Drive(c, n, c.sites[n], PublishCredentials, ch), c, n, ch);
    }
  }

  lemma StopsAtDomains(c: Cluster, n: string, ch: Choice)
    requires Supported(c, n) && CurrentReads(c) && FirstUnmet(c, n) == 4
    ensures Serves(Drive(c, n, c.sites[n], PublishDomains, ch), c, n, ch)
  {
    var site := c.sites[n];
    DrivePublishDomains(c, n, site, ch);
    assert Started(c, n, ch) == c.(domains := Publish(c.domains, site.Id(), DomainMapOf(n, site.spec)));
    StoppedServes(Drive(c, n, site, PublishDomains, ch), c, n, ch);
  }

  lemma DomainsPassed(c: Cluster, n: string, ch: Choice)
    requires Supported(c, n) && CurrentReads(c) && FirstUnmet(c, n) >= 5
    ensures Drive(c, n, c.sites[n], PublishDomains, ch) == Drive(c, n, c.sites[n], PublishCredentials, ch)
  {
    assert Published(c.domains, c.sites[n].Id(), DomainMapOf(n, c.sites[n].spec));
    DrivePublishDomains(c, n, c.sites[n], ch);
  }

  lemma FromDomains(c: Cluster, n: string, ch: Choice)
    requires Supported(c, n) && CurrentReads(c) && !ch.sqlFails && FirstUnmet(c, n) >= 4
    ensures Serves(Drive(c, n, c.sites[n], PublishDomains, ch), c, n, ch)
  {
    if FirstUnmet(c, n) >= 5 {
      DomainsPassed(c, n, ch);
      FromCredentials(c, n, ch);
    } else {
      StopsAtDomains(c, n, ch);
    }
  }

  lemma StopsAtPassword(c: Cluster, n: string, ch: Choice)
    requires Supported(c, n) && FirstUnmet(c, n) == 3
    ensures Serves(Drive(c, n, c.sites[n], MakePassword, ch), c, n, ch)
  {
    DriveMakePassword(c, n, c.sites[n], ch);
    StoppedServes(Drive(c, n, c.sites[n], MakePassword, ch), c, n, ch);
  }

  lemma FromPassword(c: Cluster, n: string, ch: Choice)
    requires Supported(c, n) && CurrentReads(c) && !ch.sqlFails && FirstUnmet(c, n) >= 3
    ensures Serves(Drive(c, n, c.sites[n], MakePassword, ch), c, n, ch)
  {
    if FirstUnmet(c, n) >= 4 {
      assert n in c.passwords;
      DriveMakePassword(c, n, c.sites[n], ch);
      FromDomains(c, n, ch);
    } else {
      StopsAtPassword(c, n, ch);
    }
  }

  lemma StopsAtLink(c: Cluster, n: string, ch: Choice)
    requires Supported(c, n) && FirstUnmet(c, n) == 2
    ensures Serves(Drive(c, n, c.sites[n], Link, ch), c, n, ch)
  {
    DriveLink(c, n, ch);
    StoppedServes(Drive(c, n, c.sites[n], Link, ch), c, n, ch);
  }

  lemma FromLink(c: Cluster, n: string, ch: Choice)
    requires Supported(c, n) && CurrentReads(c) && !ch.sqlFails && FirstUnmet(c, n) >= 2
    ensures Serves(Drive(c, n, c.sites[n], Link, ch), c, n, ch)
  {
    if FirstUnmet(c, n) >= 3 {
      assert LinkedTo(c, c.sites[n]);
      DriveLink(c, n, ch);
      FromPassword(c, n, ch);
    } else {
      StopsAtLink(c, n, ch);
    }
  }

  lemma FromProtect(c: Cluster, n: string, ch: Choice)
    requires Supported(c, n) && CurrentReads(c) && !ch.sqlFails && FirstUnmet(c, n) >= 1
    ensures Serves(Drive(c, n, c.sites[n], Protect, ch), c, n, ch)
  {
    DriveProtect(c, n, ch);
    if FirstUnmet(c, n) >= 2 {
      FromLink(c, n, ch);
    } else {
      StoppedServes(Drive(c, n, c.sites[n], Protect, ch), c, n, ch);
    }
  }

  lemma FromAssignId(c: Cluster, n: string, ch: Choice)
    requires Supported(c, n) && FirstUnmet(c, n) == 0 && ch.id != "" && ch.id !in c.ids
    ensures Serves(Drive(c, n, c.sites[n], AssignId, ch), c, n, ch)
  {
  }

  lemma DriveServes(c: Cluster, b: Cluster, n: string, ch: Choice)
    requires Supported(b, n) && CurrentReads(b) && !ch.sqlFails
             && (FirstUnmet(b, n) == 0 ==> ch.id != "" && ch.id !in b.ids)
    requires c.Valid() && b == Current(c)
    ensures Begin(c, n).Busy? && Begin(c, n).site == b.sites[n]
    ensures Serves(Drive(b, n, b.sites[n], Begin(c, n).stage, ch), b, n, ch)
  {
    if FirstUnmet(b, n) == 0 {
      FromAssignId(b, n, ch);
    } else {
      FromProtect(b, n, ch);
    }
  }

  lemma CurrentIsSame(c: Cluster, n: string)
    requires Supported(c, n)
    ensures Supported(Current(c), n) && CurrentReads(Current(c))
    ensures FirstUnmet(Current(c), n) == FirstUnmet(c, n) && (AtRest(Current(c), n) <==> AtRest(c, n))
  {
  }

  /** A pass makes one change to the API server, besides what the databases need, and it returns
      without asking for another pass exactly if nothing was left to do. */
  lemma PassServes(c: Cluster, n: string, ch: Choice)
    requires Supported(c, n) && !ch.sqlFails && (FirstUnmet(c, n) == 0 ==> ch.id != "" && ch.id !in c.ids)
    ensures Supported(Current(c), n) && Pass(c, n, ch) == Served(Current(c), n, ch)
    ensures Returns(c, n, ch) <==> AtRest(c, n) && !RoutingCrashes(c, n)
  {
    CurrentIsSame(c, n);
    DriveServes(c, Current(c), n, ch);
  }
}
