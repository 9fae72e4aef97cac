/** Safety of the site lifecycle over all runs. */
module SiteSafety {
  import opened Options
  import opened Maps
  import opened SiteTypes
  import opened SharedObject
  import opened Finalizers
  import opened LabelSync
  import opened Cluster
  import opened SiteWorker
  import opened SiteMachine

  /** Nothing of any other site differs. */
  ghost predicate OthersUntouched(c: Cluster, d: Cluster, n: string, names: set<string>)
    requires c.Valid() && d.Valid()
  {
    forall m :: m in names && m != n ==> Untouched(c, d, m)
  }

  /** A stage of site `n` keeps the invariant of `n` and touches nothing of any other site. */
  ghost predicate StepHolds(c: Cluster, n: string, names: set<string>, r: Step)
    requires c.Valid()
  {
    Global(r.cluster, names) && SiteHolds(r.cluster, n, r.worker) && OthersUntouched(c, r.cluster, n, names)
  }

  /** The assumptions under which a worker takes a stage. */
  ghost predicate Ready(c: Cluster, n: string, names: set<string>, site: Site, stage: Stage) {
    DistinctDatabases(names) && n in names && Global(c, names) && SiteHolds(c, n, Busy(site, stage))
  }

  // ---- What the stages may touch, by the part of the cluster that they write ----

  lemma UntouchedByNothing(c: Cluster, n: string, names: set<string>)
    requires c.Valid()
    ensures OthersUntouched(c, c, n, names)
  {
  }

  /** At most the site's own database, users and ProxySQL row differ. */
  predicate OnlyDatabases(c: Cluster, d: Cluster, n: string) {
    && d == c.(databases := d.databases, users := d.users, proxyUsers := d.proxyUsers, orphaned := d.orphaned)
    && c.orphaned - {n} == d.orphaned - {n}
    && c.databases - {DatabaseName(n)} == d.databases - {DatabaseName(n)}
    && c.users - {DatabaseName(n)} == d.users - {DatabaseName(n)}
    && c.proxyUsers - {DatabaseName(n)} == d.proxyUsers - {DatabaseName(n)}
  }

  /** A stage that writes the databases changes at most the rows of its own site. */
  lemma DatabasesTouched(c: Cluster, d: Cluster, n: string, names: set<string>)
    requires DistinctDatabases(names) && n in names && Global(c, names)
    requires OnlyDatabases(c, d, n)
    ensures Global(d, names) && OthersUntouched(c, d, n, names)
  {
    assert SharedGlobal(d);
    forall m | m in names && m != n ensures Untouched(c, d, m) {
      var x := DatabaseName(m);
      assert m in c.orphaned - {n} <==> m in c.orphaned;
      assert m in d.orphaned - {n} <==> m in d.orphaned;
      assert x in c.databases - {DatabaseName(n)} <==> x in c.databases;
      assert x in d.databases - {DatabaseName(n)} <==> x in d.databases;
      SameOutside(c.users, d.users, DatabaseName(n), x);
      SameOutside(c.proxyUsers, d.proxyUsers, DatabaseName(n), x);
    }
  }

  lemma PasswordTouched(c: Cluster, d: Cluster, n: string, names: set<string>)
    requires n in names && Global(c, names)
    requires d == c.(passwords := d.passwords, orphaned := d.orphaned)
    requires c.passwords - {n} == d.passwords - {n} && c.orphaned - {n} == d.orphaned - {n}
    ensures Global(d, names) && OthersUntouched(c, d, n, names)
  {
    assert SharedGlobal(d);
    forall m | m in d.passwords ensures m in names {
      if m != n {
        SameOutside(c.passwords, d.passwords, n, m);
      }
    }
    forall m | m in names && m != n ensures Untouched(c, d, m) {
      SameOutside(c.passwords, d.passwords, n, m);
      assert m in c.orphaned - {n} <==> m in c.orphaned;
    }
  }

  /** A stored Site is one of this name, and a new Id is a fresh one. */
  ghost predicate StoresSite(c: Cluster, d: Cluster, n: string) {
    && d == c.(sites := d.sites, ids := d.ids, clock := d.clock) && c.clock <= d.clock
    && c.sites - {n} == d.sites - {n}
    && (d.ids == c.ids || (exists id :: id != "" && id !in c.ids && d.ids == c.ids[id := n]))
  }

  lemma SiteStored(c: Cluster, d: Cluster, n: string, names: set<string>)
    requires n in names && Global(c, names) && StoresSite(c, d, n)
    requires n in d.sites ==> d.sites[n].version <= d.clock
    requires n in d.sites && d.sites[n].Id() != "" ==> d.sites[n].Id() in d.ids && d.ids[d.sites[n].Id()] == n
    ensures Global(d, names)
  {
    assert SharedGlobal(d);
    forall m | m in d.sites
      ensures m in names && d.sites[m].version <= d.clock
      ensures d.sites[m].Id() != "" ==> d.sites[m].Id() in d.ids && d.ids[d.sites[m].Id()] == m
    {
      if m != n {
        SameOutside(c.sites, d.sites, n, m);
      }
    }
  }

  lemma SiteTouched(c: Cluster, d: Cluster, n: string, names: set<string>)
    requires n in names && Global(c, names) && StoresSite(c, d, n)
    requires n in d.sites ==> d.sites[n].version <= d.clock
    requires n in d.sites && d.sites[n].Id() != "" ==> d.sites[n].Id() in d.ids && d.ids[d.sites[n].Id()] == n
    ensures Global(d, names) && OthersUntouched(c, d, n, names)
  {
    SiteStored(c, d, n, names);
    assert Later(c, d);
    forall m | m in names && m != n ensures Untouched(c, d, m) {
      SameOutside(c.sites, d.sites, n, m);
    }
  }

  /** What the outcome of PutSite looks like from outside. */
  lemma PutSiteShape(c: Cluster, n: string, site: Site)
    ensures var d := c.PutSite(n, site);
            && d == c.(sites := d.sites, clock := c.clock + 1) && c.sites - {n} == d.sites - {n}
            && (n in d.sites ==> d.sites[n] == site.(version := c.clock + 1))
            && (n in d.sites <==> !site.deleting || site.finalizers != [])
  {
    assert (c.sites - {n}) - {n} == c.sites - {n};
    assert c.sites[n := site.(version := c.clock + 1)] - {n} == c.sites - {n};
  }

  /** A version-checked write to the credentials map changes only the entry of the one Id. */
  lemma CredentialsTouched(c: Cluster, d: Cluster, n: string, names: set<string>, held: Snapshot<Databases>,
                           v: Databases, id: string)
    requires n in names && Global(c, names) && id in c.ids && c.ids[id] == n
    requires c.credentials.Holds(held) && held.data - {id} == v - {id}
    requires c.credentials.Write(held, v).Written? && d == c.(credentials := c.credentials.Write(held, v).shared)
    ensures Global(d, names) && OthersUntouched(c, d, n, names)
    ensures d.LiveCredentials() == v && c.LiveCredentials() == held.data
  {
    WriteIsFresh(c.credentials, held, v);
    forall x | x in v ensures x in c.ids {
      if x != id {
        SameOutside(held.data, v, id, x);
      }
    }
    assert SharedGlobal(d);
    forall m | m in names && m != n ensures Untouched(c, d, m) {
      CredentialsOfOthers(c, d, id, m);
    }
  }

  lemma CredentialsOfOthers(c: Cluster, d: Cluster, id: string, m: string)
    requires c.Valid() && d.Valid() && d == c.(credentials := d.credentials)
    requires c.credentials.log <= d.credentials.log && c.credentials.cache <= d.credentials.cache
    requires c.LiveCredentials() - {id} == d.LiveCredentials() - {id} && id in c.ids && c.ids[id] != m
    ensures Untouched(c, d, m)
  {
    forall x | x in d.ids && d.ids[x] == m ensures SameAt(c.LiveCredentials(), d.LiveCredentials(), x) {
      SameOutside(c.LiveCredentials(), d.LiveCredentials(), id, x);
    }
  }

  lemma DomainsTouched(c: Cluster, d: Cluster, n: string, names: set<string>, held: Snapshot<Domains>,
                       v: Domains, id: string)
    requires n in names && Global(c, names) && id in c.ids && c.ids[id] == n
    requires c.domains.Holds(held) && held.data - {id} == v - {id}
    requires c.domains.Write(held, v).Written? && d == c.(domains := c.domains.Write(held, v).shared)
    ensures Global(d, names) && OthersUntouched(c, d, n, names)
    ensures d.LiveDomains() == v && c.LiveDomains() == held.data
  {
    WriteIsFresh(c.domains, held, v);
    forall x | x in v ensures x in c.ids {
      if x != id {
        SameOutside(held.data, v, id, x);
      }
    }
    assert SharedGlobal(d);
    forall m | m in names && m != n ensures Untouched(c, d, m) {
      DomainsOfOthers(c, d, id, m);
    }
  }

  lemma DomainsOfOthers(c: Cluster, d: Cluster, id: string, m: string)
    requires c.Valid() && d.Valid() && d == c.(domains := d.domains)
    requires c.domains.log <= d.domains.log && c.domains.cache <= d.domains.cache
    requires c.LiveDomains() - {id} == d.LiveDomains() - {id} && id in c.ids && c.ids[id] != m
    ensures Untouched(c, d, m)
  {
    forall x | x in d.ids && d.ids[x] == m ensures SameAt(c.LiveDomains(), d.LiveDomains(), x) {
      SameOutside(c.LiveDomains(), d.LiveDomains(), id, x);
    }
  }

  lemma RestTouched(c: Cluster, d: Cluster, n: string, names: set<string>)
    requires n in names && Global(c, names)
    requires d == c.(crons := d.crons, jobs := d.jobs, ingresses := d.ingresses)
    ensures Global(d, names) && OthersUntouched(c, d, n, names)
  {
    assert SharedGlobal(d);
    assert Later(c, d);
  }

  lemma RestOwn(c: Cluster, d: Cluster, n: string, w: Worker)
    requires c.Valid() && SiteHolds(c, n, w)
    requires d == c.(crons := d.crons, jobs := d.jobs, ingresses := d.ingresses)
    ensures SiteHolds(d, n, w) && SiteHolds(d, n, Idle)
    ensures forall stage :: w.Busy? && Provisions(w.stage) && Rank(stage) >= 22 ==> SiteHolds(d, n, Busy(w.site, stage))
  {
    assert GuardsHold(d, n);
  }

  lemma EndWithTouched(c: Cluster, n: string, names: set<string>, next: Site)
    requires n in names && Global(c, names) && next.Id() in c.ids && c.ids[next.Id()] == n
    ensures Global(EndWith(c, n, next).cluster, names) && OthersUntouched(c, EndWith(c, n, next).cluster, n, names)
  {
    UntouchedByNothing(c, n, names);
    if c.UpdateSite(n, next).Some? {
      PutSiteShape(c, n, next);
      SiteTouched(c, c.PutSite(n, next), n, names);
    }
  }

  lemma PutPasswordShape(c: Cluster, n: string, secret: PasswordSecret)
    requires c.Valid()
    ensures var d := c.PutPassword(n, secret);
            && d == c.(passwords := d.passwords, orphaned := d.orphaned)
            && c.passwords - {n} == d.passwords - {n} && c.orphaned - {n} == d.orphaned - {n}
            && (n in d.passwords ==> d.passwords[n] == secret)
            && (n in d.passwords <==> !secret.deleting || secret.finalizers != [])
  {
    assert c.passwords[n := secret] - {n} == c.passwords - {n};
    assert (c.passwords - {n}) - {n} == c.passwords - {n};
  }

  // ---- The stages, one by one: first what they keep of their own site, then the whole ----

  ghost predicate OwnHolds(n: string, r: Step) {
    r.cluster.Valid() && SiteHolds(r.cluster, n, r.worker)
  }

  ghost predicate OwnReady(c: Cluster, n: string, site: Site, stage: Stage) {
    c.Valid() && SiteHolds(c, n, Busy(site, stage))
  }

  lemma AssignIdOwn(c: Cluster, n: string, site: Site, id: string)
    requires OwnReady(c, n, site, AssignId)
    requires "" !in c.ids && SharedGlobal(c)
    ensures OwnHolds(n, DoAssignId(c, n, site, id))
  {
    PutSiteShape(c, n, site.WithId(id));
    assert GuardsHold(DoAssignId(c, n, site, id).cluster, n);
  }

  lemma ForgetCredentialsOwn(c: Cluster, n: string, site: Site)
    requires OwnReady(c, n, site, ForgetCredentials)
    requires SharedGlobal(c)
    ensures OwnHolds(n, DoForgetCredentials(c, site))
  {
    assert GuardsHold(DoForgetCredentials(c, site).cluster, n);
  }

  lemma CredentialsForgotten(c: Cluster, n: string, site: Site, held: Snapshot<Databases>)
    requires OwnReady(c, n, site, ForgetCredentialsWrite(held))
    requires c.credentials.Write(held, held.data - {site.Id()}).Written?
    ensures OwnHolds(n, DoForgetCredentialsWrite(c, site, held))
  {
    var d := DoForgetCredentialsWrite(c, site, held).cluster;
    WriteIsFresh(c.credentials, held, held.data - {site.Id()});
    assert d.LiveCredentials() == held.data - {site.Id()} && c.LiveCredentials() == held.data;
    assert d.LiveDomains() == c.LiveDomains();
    assert GuardsHold(d, n);
    assert CopyHolds(d, n, site, ForgetDomains);
    assert TornDown(d, n, site, ForgetDomains);
  }

  lemma ForgetCredentialsWriteOwn(c: Cluster, n: string, site: Site, held: Snapshot<Databases>)
    requires OwnReady(c, n, site, ForgetCredentialsWrite(held))
    ensures OwnHolds(n, DoForgetCredentialsWrite(c, site, held))
  {
    if c.credentials.Write(held, held.data - {site.Id()}).Written? {
      CredentialsForgotten(c, n, site, held);
    }
    assert GuardsHold(DoForgetCredentialsWrite(c, site, held).cluster, n);
  }

  lemma ForgetDomainsOwn(c: Cluster, n: string, site: Site)
    requires OwnReady(c, n, site, ForgetDomains)
    requires SharedGlobal(c)
    ensures OwnHolds(n, DoForgetDomains(c, site))
  {
    assert GuardsHold(DoForgetDomains(c, site).cluster, n);
  }

  lemma DomainsForgotten(c: Cluster, n: string, site: Site, held: Snapshot<Domains>)
    requires OwnReady(c, n, site, ForgetDomainsWrite(held))
    requires c.domains.Write(held, held.data - {site.Id()}).Written?
    ensures OwnHolds(n, DoForgetDomainsWrite(c, site, held))
  {
    var d := DoForgetDomainsWrite(c, site, held).cluster;
    WriteIsFresh(c.domains, held, held.data - {site.Id()});
    assert d.LiveDomains() == held.data - {site.Id()} && c.LiveDomains() == held.data;
    assert d.LiveCredentials() == c.LiveCredentials();
    assert GuardsHold(d, n);
    assert CopyHolds(d, n, site, DropDatabase);
    assert TornDown(d, n, site, DropDatabase);
  }

  lemma ForgetDomainsWriteOwn(c: Cluster, n: string, site: Site, held: Snapshot<Domains>)
    requires OwnReady(c, n, site, ForgetDomainsWrite(held))
    ensures OwnHolds(n, DoForgetDomainsWrite(c, site, held))
  {
    if c.domains.Write(held, held.data - {site.Id()}).Written? {
      DomainsForgotten(c, n, site, held);
    }
    assert GuardsHold(DoForgetDomainsWrite(c, site, held).cluster, n);
  }

  lemma DropDatabaseOwn(c: Cluster, n: string, site: Site)
    requires OwnReady(c, n, site, DropDatabase)
    ensures OwnHolds(n, DoDropDatabase(c, n, site))
  {
    assert GuardsHold(DoDropDatabase(c, n, site).cluster, n);
  }

  lemma DropUserOwn(c: Cluster, n: string, site: Site)
    requires OwnReady(c, n, site, DropUser)
    ensures OwnHolds(n, DoDropUser(c, n, site))
  {
    assert GuardsHold(DoDropUser(c, n, site).cluster, n);
  }

  lemma DropProxyUserOwn(c: Cluster, n: string, site: Site, ignoredError: bool)
    requires OwnReady(c, n, site, DropProxyUser)
    ensures OwnHolds(n, DoDropProxyUser(c, n, site, ignoredError))
  {
    assert GuardsHold(DoDropProxyUser(c, n, site, ignoredError).cluster, n);
  }

  lemma ReleasePasswordOwn(c: Cluster, n: string, site: Site)
    requires OwnReady(c, n, site, ReleasePassword)
    ensures OwnHolds(n, DoReleasePassword(c, n, site))
  {
    if n in c.passwords {
      WithoutMembers(c.passwords[n].finalizers, PASSWORD_FINALIZER);
      PutPasswordShape(c, n, c.passwords[n].(finalizers := Without(c.passwords[n].finalizers, PASSWORD_FINALIZER)));
    }
    assert GuardsHold(DoReleasePassword(c, n, site).cluster, n);
  }

  lemma ReleaseSiteOwn(c: Cluster, n: string, site: Site)
    requires OwnReady(c, n, site, ReleaseSite)
    ensures OwnHolds(n, DoReleaseSite(c, n, site))
  {
    PutSiteShape(c, n, site.(finalizers := Without(site.finalizers, SITE_FINALIZER)));
    assert GuardsHold(DoReleaseSite(c, n, site).cluster, n);
  }

  lemma ProtectOwn(c: Cluster, n: string, site: Site)
    requires OwnReady(c, n, site, Protect)
    ensures OwnHolds(n, DoProtect(c, n, site))
  {
    PutSiteShape(c, n, site.(finalizers := With(site.finalizers, SITE_FINALIZER)));
    assert GuardsHold(DoProtect(c, n, site).cluster, n);
  }

  /** Linking takes no Id label from a parent and leaves finalizers, deletion mark and version. */
  lemma LinkedKeeps(site: Site, parent: Labels)
    requires SITE_ID !in parent
    ensures var next := LinkedSite(site, parent);
            next.Some? ==>
              && next.value == site.(labels := next.value.labels, controller := next.value.controller)
              && next.value.Id() == site.Id() && next.value.Protected() == site.Protected()
  {
    SyncedLabelsMeaning(parent, site.labels, LABEL_PREFIX);
  }

  lemma LinkOwn(c: Cluster, n: string, site: Site)
    requires OwnReady(c, n, site, Link)
    requires forall p :: p in c.parents ==> SITE_ID !in c.parents[p]
    ensures OwnHolds(n, DoLink(c, n, site))
  {
    if site.spec.environment in c.parents {
      LinkedKeeps(site, c.parents[site.spec.environment]);
      var next := LinkedSite(site, c.parents[site.spec.environment]);
      if next.Some? {
        PutSiteShape(c, n, next.value);
      }
    }
    assert GuardsHold(DoLink(c, n, site).cluster, n);
  }

  lemma LinkTouched(c: Cluster, n: string, names: set<string>, site: Site)
    requires n in names && Global(c, names) && site.Id() in c.ids && c.ids[site.Id()] == n
    ensures Global(DoLink(c, n, site).cluster, names) && OthersUntouched(c, DoLink(c, n, site).cluster, n, names)
  {
    UntouchedByNothing(c, n, names);
    if site.spec.environment in c.parents {
      LinkedKeeps(site, c.parents[site.spec.environment]);
      var next := LinkedSite(site, c.parents[site.spec.environment]);
      if next.Some? {
        EndWithTouched(c, n, names, next.value);
      }
    }
  }

  lemma MakePasswordOwn(c: Cluster, n: string, site: Site, password: string)
    requires OwnReady(c, n, site, MakePassword)
    ensures OwnHolds(n, DoMakePassword(c, n, site, password))
  {
    assert GuardsHold(DoMakePassword(c, n, site, password).cluster, n);
  }

  lemma PublishDomainsOwn(c: Cluster, n: string, site: Site)
    requires OwnReady(c, n, site, PublishDomains)
    ensures OwnHolds(n, DoPublishDomains(c, n, site))
  {
    assert GuardsHold(DoPublishDomains(c, n, site).cluster, n);
  }

  lemma PublishDomainsWriteOwn(c: Cluster, n: string, site: Site, held: Snapshot<Domains>)
    requires OwnReady(c, n, site, PublishDomainsWrite(held))
    ensures OwnHolds(n, DoPublishDomainsWrite(c, n, site, held))
  {
    var v := held.data[site.Id() := DomainMapOf(n, site.spec)];
    if c.domains.Write(held, v).Written? {
      WriteIsFresh(c.domains, held, v);
    }
    assert GuardsHold(DoPublishDomainsWrite(c, n, site, held).cluster, n);
  }

  lemma PublishCredentialsOwn(c: Cluster, n: string, site: Site)
    requires OwnReady(c, n, site, PublishCredentials)
    ensures OwnHolds(n, DoPublishCredentials(c, n, site))
  {
    assert GuardsHold(DoPublishCredentials(c, n, site).cluster, n);
  }

  lemma PublishCredentialsWriteOwn(c: Cluster, n: string, site: Site, held: Snapshot<Databases>, entry: Database)
    requires OwnReady(c, n, site, PublishCredentialsWrite(held, entry))
    ensures OwnHolds(n, DoPublishCredentialsWrite(c, site, held, entry))
  {
    var v := held.data[site.Id() := entry];
    if c.credentials.Write(held, v).Written? {
      WriteIsFresh(c.credentials, held, v);
    }
    assert GuardsHold(DoPublishCredentialsWrite(c, site, held, entry).cluster, n);
  }

  lemma CreateDatabaseOwn(c: Cluster, n: string, site: Site, fails: bool)
    requires OwnReady(c, n, site, CreateDatabase)
    ensures OwnHolds(n, DoCreateDatabase(c, n, site, fails))
  {
    assert GuardsHold(DoCreateDatabase(c, n, site, fails).cluster, n);
  }

  lemma CreateUserOwn(c: Cluster, n: string, site: Site, password: string, fails: bool)
    requires OwnReady(c, n, site, CreateUser(password))
    ensures OwnHolds(n, DoCreateUser(c, n, site, password, fails))
  {
    assert GuardsHold(DoCreateUser(c, n, site, password, fails).cluster, n);
  }

  lemma CreateUserShape(c: Cluster, n: string, site: Site, password: string, fails: bool)
    requires c.Valid()
    ensures OnlyDatabases(c, DoCreateUser(c, n, site, password, fails).cluster, n)
  {
  }

  lemma SetPasswordOwn(c: Cluster, n: string, site: Site, password: string, fails: bool)
    requires OwnReady(c, n, site, SetPassword(password))
    ensures OwnHolds(n, DoSetPassword(c, n, site, password, fails))
  {
    assert GuardsHold(DoSetPassword(c, n, site, password, fails).cluster, n);
  }

  lemma SetPasswordShape(c: Cluster, n: string, site: Site, password: string, fails: bool)
    requires c.Valid()
    ensures OnlyDatabases(c, DoSetPassword(c, n, site, password, fails).cluster, n)
  {
    var db, d := DatabaseName(n), DoSetPassword(c, n, site, password, fails).cluster;
    assert d == c.(users := d.users) && (d.users == c.users || d.users == c.users[db := Some(password)]);
    assert c.users[db := Some(password)] - {db} == c.users - {db};
  }

  lemma AddProxyUserOwn(c: Cluster, n: string, site: Site, password: string, fails: bool)
    requires OwnReady(c, n, site, AddProxyUser(password))
    ensures OwnHolds(n, DoAddProxyUser(c, n, site, password, fails))
  {
    assert GuardsHold(DoAddProxyUser(c, n, site, password, fails).cluster, n);
  }

  lemma AddProxyUserShape(c: Cluster, n: string, site: Site, password: string, fails: bool)
    requires c.Valid()
    ensures OnlyDatabases(c, DoAddProxyUser(c, n, site, password, fails).cluster, n)
  {
  }

  lemma SyncCronsOwn(c: Cluster, n: string, site: Site)
    requires OwnReady(c, n, site, SyncCrons)
    ensures OwnHolds(n, DoSyncCrons(c, site))
  {
    RestOwn(c, DoSyncCrons(c, site).cluster, n, Busy(site, SyncCrons));
    assert GuardsHold(DoSyncCrons(c, site).cluster, n);
  }

  lemma StartJobShape(c: Cluster, site: Site, ch: Choice)
    requires c.Valid()
    ensures var d := DoStartJob(c, site, ch).cluster;
            d == c.(crons := d.crons, jobs := d.jobs, ingresses := d.ingresses)
  {
  }

  lemma StartJobOwn(c: Cluster, n: string, site: Site, ch: Choice)
    requires OwnReady(c, n, site, StartJob)
    ensures OwnHolds(n, DoStartJob(c, site, ch))
  {
    StartJobShape(c, site, ch);
    RestOwn(c, DoStartJob(c, site, ch).cluster, n, Busy(site, StartJob));
    assert GuardsHold(DoStartJob(c, site, ch).cluster, n);
  }

  lemma ClearJobOwn(c: Cluster, n: string, site: Site, key: string)
    requires OwnReady(c, n, site, ClearJob(key))
    ensures OwnHolds(n, DoClearJob(c, n, site, key))
  {
    PutSiteShape(c, n, site.(annotations := site.annotations - {key}));
    assert GuardsHold(DoClearJob(c, n, site, key).cluster, n);
  }

  lemma RouteOwn(c: Cluster, n: string, site: Site)
    requires OwnReady(c, n, site, Route)
    ensures OwnHolds(n, DoRoute(c, n, site))
  {
    RestOwn(c, DoRoute(c, n, site).cluster, n, Busy(site, Route));
    assert GuardsHold(DoRoute(c, n, site).cluster, n);
  }

  // ---- All stages, all events, all runs ----

  // A stage and its outcome `r`, by the kind of stage

  predicate Forgets(stage: Stage) {
    stage.AssignId? || stage.ForgetCredentials? || stage.ForgetCredentialsWrite?
    || stage.ForgetDomains? || stage.ForgetDomainsWrite?
  }

  lemma AssignIdHolds(c: Cluster, n: string, names: set<string>, site: Site, stage: Stage, ch: Choice, r: Step)
    requires Ready(c, n, names, site, stage) && stage.AssignId? && r == Advance(c, n, site, stage, ch)
    ensures StepHolds(c, n, names, r)
  {
    assert r == DoAssignId(c, n, site, ch.id);
    UntouchedByNothing(c, n, names);
    var d := r.cluster;
    if d != c {
      PutSiteShape(c, n, site.WithId(ch.id));
      SiteTouched(c, d, n, names);
    }
    AssignIdOwn(c, n, site, ch.id);
  }

  lemma ForgetCredentialsHolds(c: Cluster, n: string, names: set<string>, site: Site, stage: Stage, ch: Choice, r: Step)
    requires Ready(c, n, names, site, stage) && stage.ForgetCredentials? && r == Advance(c, n, site, stage, ch)
    ensures StepHolds(c, n, names, r)
  {
    assert r == DoForgetCredentials(c, site);
    UntouchedByNothing(c, n, names);
    ForgetCredentialsOwn(c, n, site);
  }

  lemma ForgetCredentialsWriteHolds(c: Cluster, n: string, names: set<string>, site: Site, stage: Stage, ch: Choice,
                                    r: Step)
    requires Ready(c, n, names, site, stage) && stage.ForgetCredentialsWrite? && r == Advance(c, n, site, stage, ch)
    ensures StepHolds(c, n, names, r)
  {
    assert r == DoForgetCredentialsWrite(c, site, stage.heldDb);
    if c.credentials.Write(stage.heldDb, stage.heldDb.data - {site.Id()}).Written? {
      CredentialsTouched(c, r.cluster, n, names, stage.heldDb, stage.heldDb.data - {site.Id()},
                         site.Id());
    } else {
      UntouchedByNothing(c, n, names);
    }
    ForgetCredentialsWriteOwn(c, n, site, stage.heldDb);
  }

  lemma ForgetDomainsHolds(c: Cluster, n: string, names: set<string>, site: Site, stage: Stage, ch: Choice, r: Step)
    requires Ready(c, n, names, site, stage) && stage.ForgetDomains? && r == Advance(c, n, site, stage, ch)
    ensures StepHolds(c, n, names, r)
  {
    assert r == DoForgetDomains(c, site);
    UntouchedByNothing(c, n, names);
    ForgetDomainsOwn(c, n, site);
  }

  lemma ForgetDomainsWriteHolds(c: Cluster, n: string, names: set<string>, site: Site, stage: Stage, ch: Choice,
                                r: Step)
    requires Ready(c, n, names, site, stage) && stage.ForgetDomainsWrite? && r == Advance(c, n, site, stage, ch)
    ensures StepHolds(c, n, names, r)
  {
    assert r == DoForgetDomainsWrite(c, site, stage.heldDomains);
    if c.domains.Write(stage.heldDomains, stage.heldDomains.data - {site.Id()}).Written? {
      DomainsTouched(c, r.cluster, n, names, stage.heldDomains, stage.heldDomains.data - {site.Id()},
                     site.Id());
    } else {
      UntouchedByNothing(c, n, names);
    }
    ForgetDomainsWriteOwn(c, n, site, stage.heldDomains);
  }

  lemma ForgetsHolds(c: Cluster, n: string, names: set<string>, site: Site, stage: Stage, ch: Choice, r: Step)
    requires Ready(c, n, names, site, stage) && Forgets(stage) && r == Advance(c, n, site, stage, ch)
    ensures StepHolds(c, n, names, r)
  {
    if stage.AssignId? {
      AssignIdHolds(c, n, names, site, stage, ch, r);
    } else if stage.ForgetCredentials? {
      ForgetCredentialsHolds(c, n, names, site, stage, ch, r);
    } else if stage.ForgetCredentialsWrite? {
      ForgetCredentialsWriteHolds(c, n, names, site, stage, ch, r);
    } else if stage.ForgetDomains? {
      ForgetDomainsHolds(c, n, names, site, stage, ch, r);
    } else {
      ForgetDomainsWriteHolds(c, n, names, site, stage, ch, r);
    }
  }

  predicate Drops(stage: Stage) {
    stage.DropDatabase? || stage.DropUser? || stage.DropProxyUser? || stage.ReleasePassword? || stage.ReleaseSite?
  }

  lemma DropDatabaseHolds(c: Cluster, n: string, names: set<string>, site: Site, stage: Stage, ch: Choice, r: Step)
    requires Ready(c, n, names, site, stage) && stage.DropDatabase? && r == TearDown(c, n, site, stage, ch)
    ensures StepHolds(c, n, names, r)
  {
    assert r == DoDropDatabase(c, n, site);
    DatabasesTouched(c, r.cluster, n, names);
    DropDatabaseOwn(c, n, site);
  }

  lemma DropUserHolds(c: Cluster, n: string, names: set<string>, site: Site, stage: Stage, ch: Choice, r: Step)
    requires Ready(c, n, names, site, stage) && stage.DropUser? && r == TearDown(c, n, site, stage, ch)
    ensures StepHolds(c, n, names, r)
  {
    assert r == DoDropUser(c, n, site);
    DatabasesTouched(c, r.cluster, n, names);
    DropUserOwn(c, n, site);
  }

  lemma DropProxyUserHolds(c: Cluster, n: string, names: set<string>, site: Site, stage: Stage, ch: Choice, r: Step)
    requires Ready(c, n, names, site, stage) && stage.DropProxyUser? && r == TearDown(c, n, site, stage, ch)
    ensures StepHolds(c, n, names, r)
  {
    assert r == DoDropProxyUser(c, n, site, ch.sqlFails);
    DatabasesTouched(c, r.cluster, n, names);
    DropProxyUserOwn(c, n, site, ch.sqlFails);
  }

  lemma ReleasePasswordHolds(c: Cluster, n: string, names: set<string>, site: Site, stage: Stage, ch: Choice, r: Step)
    requires Ready(c, n, names, site, stage) && stage.ReleasePassword? && r == TearDown(c, n, site, stage, ch)
    ensures StepHolds(c, n, names, r)
  {
    assert r == DoReleasePassword(c, n, site);
    UntouchedByNothing(c, n, names);
    if c.PasswordHeld(n) {
      PutPasswordShape(c, n, c.passwords[n].(finalizers := Without(c.passwords[n].finalizers, PASSWORD_FINALIZER)));
      PasswordTouched(c, r.cluster, n, names);
    }
    ReleasePasswordOwn(c, n, site);
  }

  lemma ReleaseSiteHolds(c: Cluster, n: string, names: set<string>, site: Site, stage: Stage, ch: Choice, r: Step)
    requires Ready(c, n, names, site, stage) && stage.ReleaseSite? && r == TearDown(c, n, site, stage, ch)
    ensures StepHolds(c, n, names, r)
  {
    assert r == DoReleaseSite(c, n, site);
    UntouchedByNothing(c, n, names);
    EndWithTouched(c, n, names, site.(finalizers := Without(site.finalizers, SITE_FINALIZER)));
    ReleaseSiteOwn(c, n, site);
  }

  lemma DropsHolds(c: Cluster, n: string, names: set<string>, site: Site, stage: Stage, ch: Choice, r: Step)
    requires Ready(c, n, names, site, stage) && Drops(stage) && r == TearDown(c, n, site, stage, ch)
    ensures StepHolds(c, n, names, r)
  {
    if stage.DropDatabase? {
      DropDatabaseHolds(c, n, names, site, stage, ch, r);
    } else if stage.DropUser? {
      DropUserHolds(c, n, names, site, stage, ch, r);
    } else if stage.DropProxyUser? {
      DropProxyUserHolds(c, n, names, site, stage, ch, r);
    } else if stage.ReleasePassword? {
      ReleasePasswordHolds(c, n, names, site, stage, ch, r);
    } else {
      ReleaseSiteHolds(c, n, names, site, stage, ch, r);
    }
  }

  predicate Prepares(stage: Stage) {
    stage.Protect? || stage.Link? || stage.MakePassword?
  }

  lemma ProtectHolds(c: Cluster, n: string, names: set<string>, site: Site, stage: Stage, ch: Choice, r: Step)
    requires Ready(c, n, names, site, stage) && stage.Protect? && r == Provision(c, n, site, stage, ch)
    ensures StepHolds(c, n, names, r)
  {
    assert r == DoProtect(c, n, site);
    UntouchedByNothing(c, n, names);
    EndWithTouched(c, n, names, site.(finalizers := With(site.finalizers, SITE_FINALIZER)));
    ProtectOwn(c, n, site);
  }

  lemma LinkHolds(c: Cluster, n: string, names: set<string>, site: Site, stage: Stage, ch: Choice, r: Step)
    requires Ready(c, n, names, site, stage) && stage.Link? && r == Provision(c, n, site, stage, ch)
    ensures StepHolds(c, n, names, r)
  {
    assert r == DoLink(c, n, site);
    LinkTouched(c, n, names, site);
    LinkOwn(c, n, site);
  }

  lemma MakePasswordHolds(c: Cluster, n: string, names: set<string>, site: Site, stage: Stage, ch: Choice, r: Step)
    requires Ready(c, n, names, site, stage) && stage.MakePassword? && r == Provision(c, n, site, stage, ch)
    ensures StepHolds(c, n, names, r)
  {
    assert r == DoMakePassword(c, n, site, ch.password);
    if n in c.passwords {
      UntouchedByNothing(c, n, names);
    } else {
      PasswordTouched(c, r.cluster, n, names);
    }
    MakePasswordOwn(c, n, site, ch.password);
  }

  lemma PreparesHolds(c: Cluster, n: string, names: set<string>, site: Site, stage: Stage, ch: Choice, r: Step)
    requires Ready(c, n, names, site, stage) && Prepares(stage) && r == Provision(c, n, site, stage, ch)
    ensures StepHolds(c, n, names, r)
  {
    if stage.Protect? {
      ProtectHolds(c, n, names, site, stage, ch, r);
    } else if stage.Link? {
      LinkHolds(c, n, names, site, stage, ch, r);
    } else {
      MakePasswordHolds(c, n, names, site, stage, ch, r);
    }
  }

  predicate Publishes(stage: Stage) {
    stage.PublishDomains? || stage.PublishDomainsWrite?
    || stage.PublishCredentials? || stage.PublishCredentialsWrite?
  }

  lemma PublishDomainsHolds(c: Cluster, n: string, names: set<string>, site: Site, stage: Stage, ch: Choice, r: Step)
    requires Ready(c, n, names, site, stage) && stage.PublishDomains? && r == Provision(c, n, site, stage, ch)
    ensures StepHolds(c, n, names, r)
  {
    assert r == DoPublishDomains(c, n, site);
    UntouchedByNothing(c, n, names);
    PublishDomainsOwn(c, n, site);
  }

  lemma PublishDomainsWriteHolds(c: Cluster, n: string, names: set<string>, site: Site, stage: Stage, ch: Choice,
                                 r: Step)
    requires Ready(c, n, names, site, stage) && stage.PublishDomainsWrite? && r == Provision(c, n, site, stage, ch)
    ensures StepHolds(c, n, names, r)
  {
    assert r == DoPublishDomainsWrite(c, n, site, stage.heldDomains);
    var v := stage.heldDomains.data[site.Id() := DomainMapOf(n, site.spec)];
    if c.domains.Write(stage.heldDomains, v).Written? {
      DomainsTouched(c, r.cluster, n, names, stage.heldDomains, v, site.Id());
    } else {
      UntouchedByNothing(c, n, names);
    }
    PublishDomainsWriteOwn(c, n, site, stage.heldDomains);
  }

  lemma PublishCredentialsHolds(c: Cluster, n: string, names: set<string>, site: Site, stage: Stage, ch: Choice,
                                r: Step)
    requires Ready(c, n, names, site, stage) && stage.PublishCredentials? && r == Provision(c, n, site, stage, ch)
    ensures StepHolds(c, n, names, r)
  {
    assert r == DoPublishCredentials(c, n, site);
    UntouchedByNothing(c, n, names);
    PublishCredentialsOwn(c, n, site);
  }

  lemma PublishCredentialsWriteHolds(c: Cluster, n: string, names: set<string>, site: Site, stage: Stage, ch: Choice,
                                     r: Step)
    requires Ready(c, n, names, site, stage) && stage.PublishCredentialsWrite? && r == Provision(c, n, site, stage, ch)
    ensures StepHolds(c, n, names, r)
  {
    var held, entry := stage.heldDb, stage.entry;
    assert r == DoPublishCredentialsWrite(c, site, stage.heldDb, stage.entry);
    var v := held.data[site.Id() := entry];
    if c.credentials.Write(held, v).Written? {
      CredentialsTouched(c, r.cluster, n, names, held, v, site.Id());
    } else {
      UntouchedByNothing(c, n, names);
    }
    PublishCredentialsWriteOwn(c, n, site, held, entry);
  }

  lemma PublishesHolds(c: Cluster, n: string, names: set<string>, site: Site, stage: Stage, ch: Choice, r: Step)
    requires Ready(c, n, names, site, stage) && Publishes(stage) && r == Provision(c, n, site, stage, ch)
    ensures StepHolds(c, n, names, r)
  {
    if stage.PublishDomains? {
      PublishDomainsHolds(c, n, names, site, stage, ch, r);
    } else if stage.PublishDomainsWrite? {
      PublishDomainsWriteHolds(c, n, names, site, stage, ch, r);
    } else if stage.PublishCredentials? {
      PublishCredentialsHolds(c, n, names, site, stage, ch, r);
    } else {
      PublishCredentialsWriteHolds(c, n, names, site, stage, ch, r);
    }
  }

  predicate Grants(stage: Stage) {
    stage.CreateDatabase? || stage.CreateUser? || stage.SetPassword? || stage.AddProxyUser?
  }

  lemma CreateDatabaseHolds(c: Cluster, n: string, names: set<string>, site: Site, stage: Stage, ch: Choice, r: Step)
    requires Ready(c, n, names, site, stage) && stage.CreateDatabase? && r == Complete(c, n, site, stage, ch)
    ensures StepHolds(c, n, names, r)
  {
    assert r == DoCreateDatabase(c, n, site, ch.sqlFails);
    DatabasesTouched(c, r.cluster, n, names);
    CreateDatabaseOwn(c, n, site, ch.sqlFails);
  }

  lemma CreateUserHolds(c: Cluster, n: string, names: set<string>, site: Site, stage: Stage, ch: Choice, r: Step)
    requires Ready(c, n, names, site, stage) && stage.CreateUser? && r == Complete(c, n, site, stage, ch)
    ensures StepHolds(c, n, names, r)
  {
    var password := stage.password;
    assert r == DoCreateUser(c, n, site, stage.password, ch.sqlFails);
    CreateUserShape(c, n, site, password, ch.sqlFails);
    DatabasesTouched(c, r.cluster, n, names);
    CreateUserOwn(c, n, site, password, ch.sqlFails);
  }

  lemma SetPasswordHolds(c: Cluster, n: string, names: set<string>, site: Site, stage: Stage, ch: Choice, r: Step)
    requires Ready(c, n, names, site, stage) && stage.SetPassword? && r == Complete(c, n, site, stage, ch)
    ensures StepHolds(c, n, names, r)
  {
    var password := stage.password;
    assert r == DoSetPassword(c, n, site, stage.password, ch.sqlFails);
    SetPasswordShape(c, n, site, password, ch.sqlFails);
    DatabasesTouched(c, r.cluster, n, names);
    SetPasswordOwn(c, n, site, password, ch.sqlFails);
  }

  lemma AddProxyUserHolds(c: Cluster, n: string, names: set<string>, site: Site, stage: Stage, ch: Choice, r: Step)
    requires Ready(c, n, names, site, stage) && stage.AddProxyUser? && r == Complete(c, n, site, stage, ch)
    ensures StepHolds(c, n, names, r)
  {
    var password := stage.password;
    assert r == DoAddProxyUser(c, n, site, stage.password, ch.sqlFails);
    AddProxyUserShape(c, n, site, password, ch.sqlFails);
    DatabasesTouched(c, r.cluster, n, names);
    AddProxyUserOwn(c, n, site, password, ch.sqlFails);
  }

  lemma GrantsHolds(c: Cluster, n: string, names: set<string>, site: Site, stage: Stage, ch: Choice, r: Step)
    requires Ready(c, n, names, site, stage) && Grants(stage) && r == Complete(c, n, site, stage, ch)
    ensures StepHolds(c, n, names, r)
  {
    if stage.CreateDatabase? {
      CreateDatabaseHolds(c, n, names, site, stage, ch, r);
    } else if stage.CreateUser? {
      CreateUserHolds(c, n, names, site, stage, ch, r);
    } else if stage.SetPassword? {
      SetPasswordHolds(c, n, names, site, stage, ch, r);
    } else {
      AddProxyUserHolds(c, n, names, site, stage, ch, r);
    }
  }

  predicate Closes(stage: Stage) {
    stage.SyncCrons? || stage.StartJob? || stage.ClearJob? || stage.Route? || stage.Return?
  }

  lemma SyncCronsHolds(c: Cluster, n: string, names: set<string>, site: Site, stage: Stage, ch: Choice, r: Step)
    requires Ready(c, n, names, site, stage) && stage.SyncCrons? && r == Complete(c, n, site, stage, ch)
    ensures StepHolds(c, n, names, r)
  {
    assert r == DoSyncCrons(c, site);
    var r := DoSyncCrons(c, site);
    assert r.cluster == c.(crons := r.cluster.crons, jobs := r.cluster.jobs, ingresses := r.cluster.ingresses);
    RestTouched(c, r.cluster, n, names);
    SyncCronsOwn(c, n, site);
  }

  lemma StartJobHolds(c: Cluster, n: string, names: set<string>, site: Site, stage: Stage, ch: Choice, r: Step)
    requires Ready(c, n, names, site, stage) && stage.StartJob? && r == Complete(c, n, site, stage, ch)
    ensures StepHolds(c, n, names, r)
  {
    assert r == DoStartJob(c, site, ch);
    StartJobShape(c, site, ch);
    RestTouched(c, r.cluster, n, names);
    StartJobOwn(c, n, site, ch);
  }

  lemma ClearJobHolds(c: Cluster, n: string, names: set<string>, site: Site, stage: Stage, ch: Choice, r: Step)
    requires Ready(c, n, names, site, stage) && stage.ClearJob? && r == Complete(c, n, site, stage, ch)
    ensures StepHolds(c, n, names, r)
  {
    assert r == DoClearJob(c, n, site, stage.annotation);
    UntouchedByNothing(c, n, names);
    EndWithTouched(c, n, names, site.(annotations := site.annotations - {stage.annotation}));
    ClearJobOwn(c, n, site, stage.annotation);
  }

  lemma RouteHolds(c: Cluster, n: string, names: set<string>, site: Site, stage: Stage, ch: Choice, r: Step)
    requires Ready(c, n, names, site, stage) && stage.Route? && r == Complete(c, n, site, stage, ch)
    ensures StepHolds(c, n, names, r)
  {
    assert r == DoRoute(c, n, site);
    var r := DoRoute(c, n, site);
    assert r.cluster == c.(crons := r.cluster.crons, jobs := r.cluster.jobs, ingresses := r.cluster.ingresses);
    RestTouched(c, r.cluster, n, names);
    RouteOwn(c, n, site);
  }

  lemma ReturnHolds(c: Cluster, n: string, names: set<string>, site: Site, stage: Stage, ch: Choice, r: Step)
    requires Ready(c, n, names, site, stage) && stage.Return? && r == Complete(c, n, site, stage, ch)
    ensures StepHolds(c, n, names, r)
  {
    assert r == End(c);
    UntouchedByNothing(c, n, names);
  }

  lemma ClosesHolds(c: Cluster, n: string, names: set<string>, site: Site, stage: Stage, ch: Choice, r: Step)
    requires Ready(c, n, names, site, stage) && Closes(stage) && r == Complete(c, n, site, stage, ch)
    ensures StepHolds(c, n, names, r)
  {
    if stage.SyncCrons? {
      SyncCronsHolds(c, n, names, site, stage, ch, r);
    } else if stage.StartJob? {
      StartJobHolds(c, n, names, site, stage, ch, r);
    } else if stage.ClearJob? {
      ClearJobHolds(c, n, names, site, stage, ch, r);
    } else if stage.Route? {
      RouteHolds(c, n, names, site, stage, ch, r);
    } else {
      ReturnHolds(c, n, names, site, stage, ch, r);
    }
  }

  lemma OutcomeHolds(c: Cluster, n: string, names: set<string>, site: Site, stage: Stage, ch: Choice, r: Step)
    requires Ready(c, n, names, site, stage) && r == Advance(c, n, site, stage, ch)
    ensures StepHolds(c, n, names, r)
  {
    if Forgets(stage) || Drops(stage) || Prepares(stage) {
      EarlyOutcomeHolds(c, n, names, site, stage, ch, r);
    } else {
      LateOutcomeHolds(c, n, names, site, stage, ch, r);
    }
  }

  lemma EarlyOutcomeHolds(c: Cluster, n: string, names: set<string>, site: Site, stage: Stage, ch: Choice, r: Step)
    requires Ready(c, n, names, site, stage) && r == Advance(c, n, site, stage, ch)
    requires Forgets(stage) || Drops(stage) || Prepares(stage)
    ensures StepHolds(c, n, names, r)
  {
    if Forgets(stage) {
      ForgetsHolds(c, n, names, site, stage, ch, r);
    } else if Drops(stage) {
      DropsHolds(c, n, names, site, stage, ch, r);
    } else {
      PreparesHolds(c, n, names, site, stage, ch, r);
    }
  }

  lemma LateOutcomeHolds(c: Cluster, n: string, names: set<string>, site: Site, stage: Stage, ch: Choice, r: Step)
    requires Ready(c, n, names, site, stage) && r == Advance(c, n, site, stage, ch)
    requires !Forgets(stage) && !Drops(stage) && !Prepares(stage)
    ensures StepHolds(c, n, names, r)
  {
    if Publishes(stage) {
      PublishesHolds(c, n, names, site, stage, ch, r);
    } else if Grants(stage) {
      GrantsHolds(c, n, names, site, stage, ch, r);
    } else {
      ClosesHolds(c, n, names, site, stage, ch, r);
    }
  }

  /** Every stage keeps its own site's invariant and touches nothing of another site. */
  lemma AdvanceHolds(c: Cluster, n: string, names: set<string>, site: Site, stage: Stage, ch: Choice)
    requires Ready(c, n, names, site, stage)
    ensures StepHolds(c, n, names, Advance(c, n, site, stage, ch))
  {
    OutcomeHolds(c, n, names, site, stage, ch, Advance(c, n, site, stage, ch));
  }

  lemma BeginHolds(c: Cluster, n: string, names: set<string>)
    requires n in names && Global(c, names) && GuardsHold(c, n)
    ensures SiteHolds(c, n, Begin(c, n))
  {
    if n in c.sites {
      BeginOwn(c, n, c.sites[n], Begin(c, n).stage);
    }
  }

  lemma BeginOwn(c: Cluster, n: string, site: Site, stage: Stage)
    requires c.Valid() && GuardsHold(c, n) && n in c.sites && site == c.sites[n] && site.version <= c.clock
    requires if stage == AssignId then site.Id() == "" else site.Id() in c.ids && c.ids[site.Id()] == n
    requires stage == AssignId || (stage == ForgetCredentials && site.deleting) || (stage == Protect && !site.deleting)
    ensures WorkerHolds(c, n, Busy(site, stage))
  {
  }

  /** The invariant of the other sites carries over. */
  lemma OthersHold(s: State, d: Cluster, n: string)
    requires Inv(s) && Global(d, s.names) && OthersUntouched(s.cluster, d, n, s.names)
    ensures forall m :: m in s.names && m != n ==> SiteHolds(d, m, s.WorkerOf(m))
  {
    forall m | m in s.names && m != n ensures SiteHolds(d, m, s.WorkerOf(m)) {
      UntouchedIsKept(s.cluster, d, m);
      KeptSiteHolds(s.cluster, d, m, s.WorkerOf(m), s.names);
    }
  }

  lemma ProceedKeepsInv(s: State, n: string, ch: Choice)
    requires Inv(s)
    ensures Inv(AfterProceed(s, n, ch))
  {
    var t := AfterProceed(s, n, ch);
    if s.WorkerOf(n).Busy? {
      var Busy(site, stage) := s.WorkerOf(n);
      AdvanceHolds(s.cluster, n, s.names, site, stage, ch);
      OthersHold(s, t.cluster, n);
      forall m | m in s.names ensures SiteHolds(t.cluster, m, t.WorkerOf(m)) {
        assert m != n ==> t.WorkerOf(m) == s.WorkerOf(m);
      }
    }
  }

  /** After a change to one site's own objects, it remains to look at that site. */
  lemma OwnChangeKeepsInv(s: State, d: Cluster, n: string)
    requires Inv(s) && n in s.names
    requires Global(d, s.names) && OthersUntouched(s.cluster, d, n, s.names) && SiteHolds(d, n, s.WorkerOf(n))
    ensures Inv(s.(cluster := d))
  {
    OthersHold(s, d, n);
    forall m | m in s.names ensures SiteHolds(d, m, s.(cluster := d).WorkerOf(m)) {
    }
  }

  lemma CreateSiteKeepsInv(s: State, n: string, site: Site)
    requires Inv(s) && MayCreate(s, n, site)
    ensures Inv(s.(cluster := Created(s.cluster, n, site)))
  {
    var c, d := s.cluster, Created(s.cluster, n, site);
    PutSiteShape(c, n, site);
    SiteTouched(c, d, n, s.names);
    CreatedOwn(c, n, site, s.WorkerOf(n));
    OwnChangeKeepsInv(s, d, n);
  }

  lemma CreatedOwn(c: Cluster, n: string, site: Site, w: Worker)
    requires c.Valid() && SharedGlobal(c) && SiteHolds(c, n, w) && n !in c.sites && site.Id() !in c.ids
             && !site.deleting
    ensures SiteHolds(Created(c, n, site), n, w)
  {
    CreatedGuards(c, n, site);
    CreatedWorker(c, n, site, w);
  }

  lemma CreatedGuards(c: Cluster, n: string, site: Site)
    requires c.Valid() && SharedGlobal(c) && GuardsHold(c, n) && n !in c.sites && site.Id() !in c.ids
             && !site.deleting
    ensures GuardsHold(Created(c, n, site), n)
  {
    PutSiteShape(c, n, site);
  }

  lemma CreatedWorker(c: Cluster, n: string, site: Site, w: Worker)
    requires c.Valid() && WorkerHolds(c, n, w) && n !in c.sites && site.Id() !in c.ids && !site.deleting
    ensures WorkerHolds(Created(c, n, site), n, w)
  {
    PutSiteShape(c, n, site);
  }

  /** Marking or editing a Site keeps the guards, and a finalizer keeps the Site. */
  lemma StoredOwn(c: Cluster, n: string, site: Site, w: Worker)
    requires c.Valid() && SiteHolds(c, n, w) && n in c.sites
    requires site.Id() == c.sites[n].Id() && site.Protected() == c.sites[n].Protected()
    ensures SiteHolds(c.PutSite(n, site), n, w)
  {
    PutSiteShape(c, n, site);
    assert GuardsHold(c.PutSite(n, site), n);
  }

  lemma StoreSiteKeepsInv(s: State, n: string, site: Site)
    requires Inv(s) && n in s.cluster.sites
    requires site.Id() == s.cluster.sites[n].Id() && site.Protected() == s.cluster.sites[n].Protected()
    ensures Inv(s.(cluster := s.cluster.PutSite(n, site)))
  {
    PutSiteShape(s.cluster, n, site);
    SiteTouched(s.cluster, s.cluster.PutSite(n, site), n, s.names);
    StoredOwn(s.cluster, n, site, s.WorkerOf(n));
    OwnChangeKeepsInv(s, s.cluster.PutSite(n, site), n);
  }

  lemma PasswordMarkedOwn(c: Cluster, n: string, w: Worker)
    requires c.Valid() && SiteHolds(c, n, w) && n in c.passwords
    requires c.passwords[n].finalizers != [] || !ReliesOnPassword(w) || w.site.Protected()
    ensures SiteHolds(c.PutPassword(n, c.passwords[n].(deleting := true)), n, w)
  {
    MarkedGuards(c, n);
    MarkedWorker(c, n, w);
  }

  lemma MarkedGuards(c: Cluster, n: string)
    requires c.Valid() && GuardsHold(c, n) && n in c.passwords
    ensures GuardsHold(c.PutPassword(n, c.passwords[n].(deleting := true)), n)
  {
    PutPasswordShape(c, n, c.passwords[n].(deleting := true));
  }

  lemma MarkedWorker(c: Cluster, n: string, w: Worker)
    requires c.Valid() && WorkerHolds(c, n, w) && n in c.passwords
    requires c.passwords[n].finalizers != [] || !ReliesOnPassword(w) || w.site.Protected()
    ensures WorkerHolds(c.PutPassword(n, c.passwords[n].(deleting := true)), n, w)
  {
    PutPasswordShape(c, n, c.passwords[n].(deleting := true));
  }

  lemma DeletePasswordKeepsInv(s: State, n: string)
    requires Inv(s) && MayDeletePassword(s, n)
    ensures Inv(s.(cluster := s.cluster.PutPassword(n, s.cluster.passwords[n].(deleting := true))))
  {
    var secret := s.cluster.passwords[n].(deleting := true);
    PutPasswordShape(s.cluster, n, secret);
    PasswordTouched(s.cluster, s.cluster.PutPassword(n, secret), n, s.names);
    PasswordMarkedOwn(s.cluster, n, s.WorkerOf(n));
    OwnChangeKeepsInv(s, s.cluster.PutPassword(n, secret), n);
  }

  /** Events that leave every site's own objects alone and at most empty the shared ones. */
  lemma SharedChangeKeepsInv(s: State, d: Cluster)
    requires Inv(s) && Global(d, s.names)
    requires forall m :: m in s.names ==> Kept(s.cluster, d, m)
    ensures Inv(s.(cluster := d))
  {
    forall m | m in s.names ensures SiteHolds(d, m, s.(cluster := d).WorkerOf(m)) {
      KeptSiteHolds(s.cluster, d, m, s.WorkerOf(m), s.names);
    }
  }

  lemma DomainsChangeKept(c: Cluster, x: Shared<Domains>, names: set<string>)
    requires Global(c, names) && x.Valid() && c.domains.log <= x.log && c.domains.cache <= x.cache
    requires x.log == c.domains.log || x.Live() == None || x.Live() == Some(map[])
    ensures Global(c.(domains := x), names) && forall m :: m in names ==> Kept(c, c.(domains := x), m)
  {
    var d := c.(domains := x);
    assert SharedGlobal(d);
    assert Later(c, d);
  }

  lemma CredentialsChangeKept(c: Cluster, x: Shared<Databases>, names: set<string>)
    requires Global(c, names) && x.Valid() && c.credentials.log <= x.log && c.credentials.cache <= x.cache
    requires x.log == c.credentials.log || x.Live() == None || x.Live() == Some(map[])
    ensures Global(c.(credentials := x), names) && forall m :: m in names ==> Kept(c, c.(credentials := x), m)
  {
    var d := c.(credentials := x);
    assert SharedGlobal(d);
    assert Later(c, d);
  }

  lemma SurroundingsKept(c: Cluster, d: Cluster, names: set<string>)
    requires Global(c, names)
    requires d == c.(proxyService := d.proxyService, parents := d.parents, crons := d.crons,
                   jobs := d.jobs, ingresses := d.ingresses)
    requires forall p :: p in d.parents ==> SITE_ID !in d.parents[p]
    ensures Global(d, names) && forall m :: m in names ==> Kept(c, d, m)
  {
    assert SharedGlobal(d);
    assert Later(c, d);
  }

  lemma BeginKeepsInv(s: State, n: string)
    requires Inv(s) && n in s.cluster.sites
    ensures Inv(s.(workers := s.workers[n := Begin(s.cluster, n)]))
  {
    var t := s.(workers := s.workers[n := Begin(s.cluster, n)]);
    BeginHolds(s.cluster, n, s.names);
    forall m | m in s.names ensures SiteHolds(t.cluster, m, t.WorkerOf(m)) {
      assert m != n ==> t.WorkerOf(m) == s.WorkerOf(m);
    }
  }

  lemma AbortKeepsInv(s: State, n: string)
    requires Inv(s) && n in s.workers
    ensures Inv(s.(workers := s.workers[n := Idle]))
  {
    var t := s.(workers := s.workers[n := Idle]);
    forall m | m in s.names ensures SiteHolds(t.cluster, m, t.WorkerOf(m)) {
      assert m != n ==> t.WorkerOf(m) == s.WorkerOf(m);
    }
  }

  predicate OfSharedObject(e: Event) {
    e.CreateDomains? || e.CreateCredentials? || e.DeleteDomains? || e.DeleteCredentials? || e.ObserveDomains?
      || e.ObserveCredentials?
  }

  predicate OfDomains(e: Event) {
    e.CreateDomains? || e.DeleteDomains? || e.ObserveDomains?
  }

  lemma DomainsEventKept(s: State, e: Event)
    requires Global(s.cluster, s.names) && OfDomains(e)
    ensures Global(After(s, e).cluster, s.names) && forall m :: m in s.names ==> Kept(s.cluster, After(s, e).cluster, m)
  {
    var x := After(s, e).cluster.domains;
    assert After(s, e).cluster == s.cluster.(domains := x);
    DomainsChangeKept(s.cluster, x, s.names);
  }

  lemma CredentialsEventKept(s: State, e: Event)
    requires Global(s.cluster, s.names) && OfSharedObject(e) && !OfDomains(e)
    ensures Global(After(s, e).cluster, s.names) && forall m :: m in s.names ==> Kept(s.cluster, After(s, e).cluster, m)
  {
    var x := After(s, e).cluster.credentials;
    assert After(s, e).cluster == s.cluster.(credentials := x);
    CredentialsChangeKept(s.cluster, x, s.names);
  }

  lemma SharedEventKept(s: State, e: Event)
    requires Global(s.cluster, s.names) && OfSharedObject(e)
    ensures Global(After(s, e).cluster, s.names) && forall m :: m in s.names ==> Kept(s.cluster, After(s, e).cluster, m)
  {
    if OfDomains(e) {
      DomainsEventKept(s, e);
    } else {
      CredentialsEventKept(s, e);
    }
  }

  predicate OfSurroundings(e: Event) {
    e.SetProxyService? || e.SetParent? || e.RemoveParent? || e.Disturb?
  }

  lemma ParentEventKept(s: State, e: Event)
    requires Global(s.cluster, s.names) && (e.SetParent? || e.RemoveParent?)
    ensures Global(After(s, e).cluster, s.names) && forall m :: m in s.names ==> Kept(s.cluster, After(s, e).cluster, m)
  {
    var d := After(s, e).cluster;
    assert d == s.cluster.(parents := d.parents);
    SurroundingsKept(s.cluster, d, s.names);
  }

  lemma WorkloadEventKept(s: State, e: Event)
    requires Global(s.cluster, s.names) && (e.SetProxyService? || e.Disturb?)
    ensures Global(After(s, e).cluster, s.names) && forall m :: m in s.names ==> Kept(s.cluster, After(s, e).cluster, m)
  {
    var d := After(s, e).cluster;
    assert d.parents == s.cluster.parents;
    SurroundingsKept(s.cluster, d, s.names);
  }

  lemma SurroundingEventKept(s: State, e: Event)
    requires Global(s.cluster, s.names) && OfSurroundings(e)
    ensures Global(After(s, e).cluster, s.names) && forall m :: m in s.names ==> Kept(s.cluster, After(s, e).cluster, m)
  {
    if e.SetParent? || e.RemoveParent? {
      ParentEventKept(s, e);
    } else {
      WorkloadEventKept(s, e);
    }
  }

  predicate OfWorker(e: Event) {
    e.BeginPass? || e.Proceed? || e.Abort?
  }

  lemma WorkerEventKeepsInv(s: State, e: Event)
    requires Inv(s) && OfWorker(e)
    ensures Inv(After(s, e))
  {
    match e
    case BeginPass(n) =>
      if s.WorkerOf(n).Idle? && n in s.cluster.sites {
        BeginKeepsInv(s, n);
      }
    case Proceed(n, ch) => ProceedKeepsInv(s, n, ch);
    case Abort(n) =>
      if n in s.workers {
        AbortKeepsInv(s, n);
      }
  }

  predicate Stores(e: Event) {
    e.DeleteSite? || e.EditSite?
  }

  lemma StoreEventKeepsInv(s: State, e: Event)
    requires Inv(s) && Stores(e)
    ensures Inv(After(s, e))
  {
    if e.DeleteSite? && e.n in s.cluster.sites {
      StoreSiteKeepsInv(s, e.n, s.cluster.sites[e.n].(deleting := true));
    }
    if e.EditSite? && MayEdit(s, e.n, e.site) {
      StoreSiteKeepsInv(s, e.n, e.site);
    }
  }

  lemma CreateEventKeepsInv(s: State, e: Event)
    requires Inv(s) && e.CreateSite?
    ensures Inv(After(s, e))
  {
    if MayCreate(s, e.n, e.site) {
      CreateSiteKeepsInv(s, e.n, e.site);
    }
  }

  lemma PasswordEventKeepsInv(s: State, e: Event)
    requires Inv(s) && e.DeletePassword?
    ensures Inv(After(s, e))
  {
    if MayDeletePassword(s, e.n) {
      DeletePasswordKeepsInv(s, e.n);
    }
  }

  /** Every event keeps the invariant. */
  lemma EventKeepsInv(s: State, e: Event)
    requires Inv(s)
    ensures Inv(After(s, e))
  {
    if OfWorker(e) {
      WorkerEventKeepsInv(s, e);
    } else if Stores(e) {
      StoreEventKeepsInv(s, e);
    } else if e.CreateSite? {
      CreateEventKeepsInv(s, e);
    } else if e.DeletePassword? {
      PasswordEventKeepsInv(s, e);
    } else if OfSharedObject(e) {
      SharedEventKept(s, e);
      SharedChangeKeepsInv(s, After(s, e).cluster);
    } else {
      SurroundingEventKept(s, e);
      SharedChangeKeepsInv(s, After(s, e).cluster);
    }
  }

  lemma InitialHolds(s: State)
    requires Initial(s)
    ensures Inv(s)
  {
    assert s.cluster.LiveDomains() == map[] && s.cluster.LiveCredentials() == map[];
  }

  lemma {:induction false} RunKeepsInv(s: State, events: seq<Event>)
    requires Inv(s)
    ensures Inv(Run(s, events))
    decreases |events|
  {
    if events != [] {
      EventKeepsInv(s, events[0]);
      RunKeepsInv(After(s, events[0]), events[1..]);
    }
  }

  // ---- The main results, for every run from the start ----

  lemma SiteHoldsAfter(s: State, events: seq<Event>, n: string)
    requires Initial(s) && n in s.names
    ensures Inv(Run(s, events)) && SiteHolds(Run(s, events).cluster, n, Run(s, events).WorkerOf(n))
  {
    InitialHolds(s);
    RunKeepsInv(s, events);
  }

  lemma BusyWorkerHolds(t: State, n: string)
    requires Inv(t)
    ensures WorkerHolds(t.cluster, n, t.WorkerOf(n))
  {
    if n in t.workers {
      assert SiteHolds(t.cluster, n, t.WorkerOf(n));
    }
  }

  /** What a worker that tears a site down has put behind it. */
  predicate EntriesGone(c: Cluster, w: Worker)
    requires c.Valid()
  {
    w.Busy? && TearsDown(w.stage) ==>
      && (Rank(w.stage) >= Rank(ForgetDomains) ==> w.site.Id() !in c.LiveCredentials())
      && (Rank(w.stage) >= Rank(DropDatabase) ==> w.site.Id() !in c.LiveDomains())
  }

  lemma HeldWorkerForgets(c: Cluster, n: string, w: Worker)
    requires c.Valid() && WorkerHolds(c, n, w)
    ensures EntriesGone(c, w)
  {
    if w.Busy? && TearsDown(w.stage) {
      assert TornDown(c, n, w.site, w.stage);
    }
  }

  /** A worker at a stage after the deletion block. */
  predicate ServesProtected(c: Cluster, n: string, w: Worker) {
    w.Busy? && Rank(w.stage) >= Rank(Protect) ==> !w.site.deleting && (Provisions(w.stage) ==> c.SiteProtected(n))
  }

  lemma HeldWorkerServes(c: Cluster, n: string, w: Worker)
    requires c.Valid() && WorkerHolds(c, n, w)
    ensures ServesProtected(c, n, w)
  {
    if w.Busy? && Provisions(w.stage) {
      assert ProvisionsProtected(c, n, w.site);
    }
  }

  /** Finalizer safety: whenever a site's database or database user, or the finalizer on its password
      Secret exists, the Site object exists and carries the cleanup finalizer. */
  lemma FinalizerSafety(s: State, events: seq<Event>, n: string)
    requires Initial(s) && n in s.names
    ensures var c := Run(s, events).cluster;
            DatabaseName(n) in c.databases || DatabaseName(n) in c.users || c.PasswordHeld(n) ==> c.SiteProtected(n)
  {
    SiteHoldsAfter(s, events, n);
    var t := Run(s, events);
    assert GuardsHold(t.cluster, n);
  }

  /** The same for the shared maps: every entry of either map belongs to a Site that exists, has the
      entry's Id and carries the cleanup finalizer. */
  lemma EntrySafety(s: State, events: seq<Event>, id: string)
    requires Initial(s)
    ensures var c := Run(s, events).cluster;
            id in c.LiveDomains() || id in c.LiveCredentials() ==>
              id in c.ids && c.SiteProtected(c.ids[id]) && c.sites[c.ids[id]].Id() == id
  {
    InitialHolds(s);
    RunKeepsInv(s, events);
    var c := Run(s, events).cluster;
    if id in c.LiveDomains() || id in c.LiveCredentials() {
      SiteHoldsAfter(s, events, c.ids[id]);
      assert GuardsHold(c, c.ids[id]);
    }
  }

  /** A pass that began on a Site marked for deletion never reaches a provisioning stage, although
      the code can fall through to them; and a pass that reaches them serves a protected Site. */
  lemma DeletionNeverProvisions(s: State, events: seq<Event>, n: string)
    requires Initial(s)
    ensures var t := Run(s, events); ServesProtected(t.cluster, n, t.WorkerOf(n))
  {
    InitialHolds(s);
    RunKeepsInv(s, events);
    BusyWorkerHolds(Run(s, events), n);
    HeldWorkerServes(Run(s, events).cluster, n, Run(s, events).WorkerOf(n));
  }

  /** No lost update: in any interleaving, with reads as old as they may be, a step of one site's
      worker leaves everything of every other site as it is: its Site and password Secret, its
      database, user and ProxySQL row, and its entries in both shared domain maps. */
  lemma NoLostUpdate(s: State, events: seq<Event>, n: string, ch: Choice, m: string)
    requires Initial(s) && m in s.names && m != n
    ensures var t := Run(s, events); Untouched(t.cluster, After(t, Proceed(n, ch)).cluster, m)
  {
    InitialHolds(s);
    RunKeepsInv(s, events);
    ProceedTouchesOwn(Run(s, events), n, ch, m);
  }

  lemma ProceedTouchesOwn(t: State, n: string, ch: Choice, m: string)
    requires Inv(t) && m in t.names && m != n
    ensures Untouched(t.cluster, After(t, Proceed(n, ch)).cluster, m)
  {
    UntouchedByNothing(t.cluster, n, t.names);
    if t.WorkerOf(n).Busy? {
      AdvanceHolds(t.cluster, n, t.names, t.WorkerOf(n).site, t.WorkerOf(n).stage, ch);
    }
  }

  /** Once tearing down has passed the domain maps, the site's entries are gone from the live
      objects, whether the pass wrote them or found the object missing in its cache. */
  lemma ForgottenEntriesAreGone(s: State, events: seq<Event>, n: string)
    requires Initial(s)
    ensures var t := Run(s, events); EntriesGone(t.cluster, t.WorkerOf(n))
  {
    InitialHolds(s);
    RunKeepsInv(s, events);
    BusyWorkerHolds(Run(s, events), n);
    HeldWorkerForgets(Run(s, events).cluster, n, Run(s, events).WorkerOf(n));
  }
}
