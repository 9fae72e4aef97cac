/** One password per site: the password Secret, the shared Secret `domain-map`, MySQL and ProxySQL
    agree on it in every run, however passes are cut short. */
module Credentials {
  import opened Maps
  import opened SiteTypes
  import opened SharedObject
  import opened Finalizers
  import opened Cluster
  import opened SiteWorker
  import opened SiteMachine
  import opened SiteSafety

  // ---- The invariant of one site ----

  /** A database user has no password yet or the recorded one, and it exists only while the password
      Secret is held. */
  predicate UserAgrees(c: Cluster, n: string) {
    DatabaseName(n) in c.users ==>
      && c.PasswordHeld(n)
      && (c.users[DatabaseName(n)].Some? ==> c.users[DatabaseName(n)].value == c.passwords[n].password)
  }

  /** The same for ProxySQL, unless a row has outlived an earlier password Secret of the same name. */
  predicate ProxyAgrees(c: Cluster, n: string) {
    n !in c.orphaned && DatabaseName(n) in c.proxyUsers ==>
      n in c.passwords && c.proxyUsers[DatabaseName(n)] == c.passwords[n].password
  }

  /** Every entry of the site in the shared Secret is the one that the password Secret gives. */
  predicate EntriesAgree(c: Cluster, n: string)
    requires c.Valid()
  {
    forall id :: id in c.LiveCredentials() && id in c.ids && c.ids[id] == n ==>
      c.PasswordHeld(n) && c.LiveCredentials()[id] == DatabaseOf(n, c.passwords[n].password)
  }

  /** A Site that is not being deleted holds its password Secret, if there is one. */
  predicate SecretServes(c: Cluster, n: string) {
    n in c.sites && !c.sites[n].deleting && n in c.passwords ==> c.passwords[n].Held()
  }

  predicate Agrees(c: Cluster, n: string)
    requires c.Valid()
  {
    UserAgrees(c, n) && ProxyAgrees(c, n) && EntriesAgree(c, n) && SecretServes(c, n)
  }

  /** A worker that provisions, and the password it has read. */
  predicate CarriesPassword(c: Cluster, n: string, stage: Stage) {
    && (Rank(stage) >= 11 && n in c.passwords ==> c.passwords[n].Held())
    && (Rank(stage) >= 14 ==> n in c.passwords)
    && (stage.CreateUser? || stage.SetPassword? || stage.AddProxyUser? ==>
          n in c.passwords && stage.password == c.passwords[n].password)
    && (stage.PublishCredentialsWrite? ==> n in c.passwords && stage.entry == DatabaseOf(n, c.passwords[n].password))
  }

  /** A worker that tears down: no new Site of the name relies on the same password Secret, and no
      entry but its own is left. */
  predicate TearsDownAlone(c: Cluster, n: string, site: Site)
    requires c.Valid()
  {
    && (n in c.passwords && n in c.sites ==> c.sites[n].deleting)
    && (forall id :: id in c.LiveCredentials() && id in c.ids && c.ids[id] == n ==> id == site.Id())
  }

  predicate WorkerAgrees(c: Cluster, n: string, w: Worker)
    requires c.Valid()
  {
    w.Busy? ==> CarriesPassword(c, n, w.stage) && (TearsDown(w.stage) ==> TearsDownAlone(c, n, w.site))
  }

  predicate BothAgree(c: Cluster, n: string, w: Worker)
    requires c.Valid()
  {
    Agrees(c, n) && WorkerAgrees(c, n, w)
  }

  // ---- What leaves the invariant of a site alone ----

  /** Nothing that carries the site's password differs, and no Site that is not being deleted appears. */
  predicate SameSecrets(c: Cluster, d: Cluster, n: string)
    requires c.Valid() && d.Valid()
  {
    && SameAt(c.passwords, d.passwords, n)
    && SameAt(c.users, d.users, DatabaseName(n)) && SameAt(c.proxyUsers, d.proxyUsers, DatabaseName(n))
    && (n in c.orphaned <==> n in d.orphaned)
    && (n in d.sites && !d.sites[n].deleting ==> n in c.sites && !c.sites[n].deleting)
    && FewerEntries(c, d, n)
  }

  predicate FewerEntries(c: Cluster, d: Cluster, n: string)
    requires c.Valid() && d.Valid()
  {
    forall id :: id in d.LiveCredentials() && id in d.ids && d.ids[id] == n ==>
      id in c.LiveCredentials() && id in c.ids && c.ids[id] == n && c.LiveCredentials()[id] == d.LiveCredentials()[id]
  }

  lemma SameSecretsAgree(c: Cluster, d: Cluster, n: string, w: Worker)
    requires c.Valid() && d.Valid() && SameSecrets(c, d, n) && BothAgree(c, n, w)
    ensures BothAgree(d, n, w)
  {
    assert UserAgrees(d, n) && ProxyAgrees(d, n);
    assert EntriesAgree(d, n);
    assert w.Busy? ==> CarriesPassword(d, n, w.stage);
  }

  lemma UntouchedSecrets(c: Cluster, d: Cluster, m: string, names: set<string>)
    requires Global(c, names) && d.Valid() && Untouched(c, d, m)
    ensures SameSecrets(c, d, m)
  {
  }

  // ---- The stages of a pass ----

  ghost predicate AgreeReady(c: Cluster, n: string, site: Site, stage: Stage) {
    c.Valid() && SharedGlobal(c) && SiteHolds(c, n, Busy(site, stage)) && BothAgree(c, n, Busy(site, stage))
  }

  predicate StepAgrees(n: string, r: Step) {
    r.cluster.Valid() && BothAgree(r.cluster, n, r.worker)
  }

  /** Storing the Site again keeps its deletion mark. */
  lemma EndWithSame(c: Cluster, n: string, site: Site, next: Site)
    requires c.Valid() && (n in c.sites && c.sites[n].version == site.version ==> c.sites[n] == site)
    requires next.version == site.version && next.deleting == site.deleting
    ensures SameSecrets(c, EndWith(c, n, next).cluster, n)
  {
    PutSiteShape(c, n, next);
  }

  lemma EndWithAgrees(c: Cluster, n: string, site: Site, stage: Stage, next: Site)
    requires AgreeReady(c, n, site, stage) && next.version == site.version && next.deleting == site.deleting
    ensures StepAgrees(n, EndWith(c, n, next))
  {
    EndWithSame(c, n, site, next);
    SameSecretsAgree(c, EndWith(c, n, next).cluster, n, Idle);
  }

  /** A fresh Id has no entry yet. */
  lemma FreshIdSame(c: Cluster, d: Cluster, n: string, id: string)
    requires c.Valid() && d.Valid() && SharedGlobal(c) && id !in c.ids
    requires SameSecrets(c, d, n) && d.ids == c.ids && d.LiveCredentials() == c.LiveCredentials()
    ensures SameSecrets(c, d.(ids := c.ids[id := n]), n)
  {
  }

  lemma AssignIdAgrees(c: Cluster, n: string, site: Site, id: string)
    requires AgreeReady(c, n, site, AssignId)
    ensures StepAgrees(n, DoAssignId(c, n, site, id))
  {
    var e, d := EndWith(c, n, site.WithId(id)).cluster, DoAssignId(c, n, site, id).cluster;
    if d != c {
      EndWithSame(c, n, site, site.WithId(id));
      FreshIdSame(c, e, n, id);
      SameSecretsAgree(c, d, n, Idle);
    }
  }

  // Tearing down

  lemma ForgetCredentialsAgrees(c: Cluster, n: string, site: Site)
    requires AgreeReady(c, n, site, ForgetCredentials)
    ensures StepAgrees(n, DoForgetCredentials(c, site))
  {
  }

  lemma ForgetCredentialsWriteAgrees(c: Cluster, n: string, site: Site, held: Snapshot<Databases>)
    requires AgreeReady(c, n, site, ForgetCredentialsWrite(held))
    ensures StepAgrees(n, DoForgetCredentialsWrite(c, site, held))
  {
    var r := c.credentials.Write(held, held.data - {site.Id()});
    if r.Written? {
      WriteIsFresh(c.credentials, held, held.data - {site.Id()});
      var d := c.(credentials := r.shared);
      assert FewerEntries(c, d, n);
      SameSecretsAgree(c, d, n, Busy(site, ForgetCredentialsWrite(held)));
    }
  }

  lemma ForgetDomainsAgrees(c: Cluster, n: string, site: Site)
    requires AgreeReady(c, n, site, ForgetDomains)
    ensures StepAgrees(n, DoForgetDomains(c, site))
  {
  }

  lemma DomainsSame(c: Cluster, d: Cluster, n: string, w: Worker)
    requires c.Valid() && d.Valid() && d == c.(domains := d.domains) && BothAgree(c, n, w)
    ensures BothAgree(d, n, w) && BothAgree(d, n, Idle)
  {
    assert EntriesAgree(d, n);
  }

  lemma ForgetDomainsWriteAgrees(c: Cluster, n: string, site: Site, held: Snapshot<Domains>)
    requires AgreeReady(c, n, site, ForgetDomainsWrite(held))
    ensures StepAgrees(n, DoForgetDomainsWrite(c, site, held))
  {
    var d := DoForgetDomainsWrite(c, site, held).cluster;
    assert d == c.(domains := d.domains);
    DomainsSame(c, d, n, Busy(site, ForgetDomainsWrite(held)));
  }

  lemma DropDatabaseAgrees(c: Cluster, n: string, site: Site)
    requires AgreeReady(c, n, site, DropDatabase)
    ensures StepAgrees(n, DoDropDatabase(c, n, site))
  {
    SameSecretsAgree(c, DoDropDatabase(c, n, site).cluster, n, Busy(site, DropDatabase));
  }

  lemma DropUserAgrees(c: Cluster, n: string, site: Site)
    requires AgreeReady(c, n, site, DropUser)
    ensures StepAgrees(n, DoDropUser(c, n, site))
  {
    assert EntriesAgree(DoDropUser(c, n, site).cluster, n);
  }

  lemma DropProxyUserAgrees(c: Cluster, n: string, site: Site, ignoredError: bool)
    requires AgreeReady(c, n, site, DropProxyUser)
    ensures StepAgrees(n, DoDropProxyUser(c, n, site, ignoredError))
  {
    assert EntriesAgree(DoDropProxyUser(c, n, site, ignoredError).cluster, n);
  }

  /** By the time that the password Secret is released nothing else but a leftover ProxySQL row
      carries the password. */
  lemma NothingLeft(c: Cluster, n: string, site: Site)
    requires AgreeReady(c, n, site, ReleasePassword)
    ensures DatabaseName(n) !in c.users
    ensures forall id :: id in c.LiveCredentials() && id in c.ids ==> c.ids[id] != n
    ensures n in c.passwords && n in c.sites ==> c.sites[n].deleting
  {
    assert TornDown(c, n, site, ReleasePassword);
  }

  lemma ReleasePasswordAgrees(c: Cluster, n: string, site: Site)
    requires AgreeReady(c, n, site, ReleasePassword)
    ensures StepAgrees(n, DoReleasePassword(c, n, site))
  {
    NothingLeft(c, n, site);
    if c.PasswordHeld(n) {
      PutPasswordShape(c, n, c.passwords[n].(finalizers := Without(c.passwords[n].finalizers, PASSWORD_FINALIZER)));
    }
  }

  lemma ReleaseSiteAgrees(c: Cluster, n: string, site: Site)
    requires AgreeReady(c, n, site, ReleaseSite)
    ensures StepAgrees(n, DoReleaseSite(c, n, site))
  {
    assert TornDown(c, n, site, ReleaseSite);
    EndWithAgrees(c, n, site, ReleaseSite, site.(finalizers := Without(site.finalizers, SITE_FINALIZER)));
  }

  // Provisioning

  lemma ProtectAgrees(c: Cluster, n: string, site: Site)
    requires AgreeReady(c, n, site, Protect)
    ensures StepAgrees(n, DoProtect(c, n, site))
  {
    EndWithAgrees(c, n, site, Protect, site.(finalizers := With(site.finalizers, SITE_FINALIZER)));
  }

  lemma LinkAgrees(c: Cluster, n: string, site: Site)
    requires AgreeReady(c, n, site, Link)
    ensures StepAgrees(n, DoLink(c, n, site))
  {
    if site.spec.environment in c.parents && LinkedSite(site, c.parents[site.spec.environment]).Some? {
      EndWithAgrees(c, n, site, Link, LinkedSite(site, c.parents[site.spec.environment]).value);
    }
  }

  lemma MakePasswordAgrees(c: Cluster, n: string, site: Site, password: string)
    requires AgreeReady(c, n, site, MakePassword)
    ensures StepAgrees(n, DoMakePassword(c, n, site, password))
  {
    assert EntriesAgree(DoMakePassword(c, n, site, password).cluster, n);
  }

  lemma PublishDomainsAgrees(c: Cluster, n: string, site: Site)
    requires AgreeReady(c, n, site, PublishDomains)
    ensures StepAgrees(n, DoPublishDomains(c, n, site))
  {
  }

  lemma PublishDomainsWriteAgrees(c: Cluster, n: string, site: Site, held: Snapshot<Domains>)
    requires AgreeReady(c, n, site, PublishDomainsWrite(held))
    ensures StepAgrees(n, DoPublishDomainsWrite(c, n, site, held))
  {
    var d := DoPublishDomainsWrite(c, n, site, held).cluster;
    assert d == c.(domains := d.domains);
    DomainsSame(c, d, n, Busy(site, PublishDomainsWrite(held)));
  }

  lemma PublishCredentialsAgrees(c: Cluster, n: string, site: Site)
    requires AgreeReady(c, n, site, PublishCredentials)
    ensures StepAgrees(n, DoPublishCredentials(c, n, site))
  {
  }

  lemma PublishCredentialsWriteAgrees(c: Cluster, n: string, site: Site, held: Snapshot<Databases>, entry: Database)
    requires AgreeReady(c, n, site, PublishCredentialsWrite(held, entry))
    ensures StepAgrees(n, DoPublishCredentialsWrite(c, site, held, entry))
  {
    var v := held.data[site.Id() := entry];
    if c.credentials.Write(held, v).Written? {
      WriteIsFresh(c.credentials, held, v);
      var d := DoPublishCredentialsWrite(c, site, held, entry).cluster;
      assert d.LiveCredentials() == v;
      assert EntriesAgree(d, n);
    }
  }

  lemma CreateDatabaseAgrees(c: Cluster, n: string, site: Site, fails: bool)
    requires AgreeReady(c, n, site, CreateDatabase)
    ensures StepAgrees(n, DoCreateDatabase(c, n, site, fails))
  {
    assert EntriesAgree(DoCreateDatabase(c, n, site, fails).cluster, n);
  }

  lemma CreateUserAgrees(c: Cluster, n: string, site: Site, password: string, fails: bool)
    requires AgreeReady(c, n, site, CreateUser(password))
    ensures StepAgrees(n, DoCreateUser(c, n, site, password, fails))
  {
    assert EntriesAgree(DoCreateUser(c, n, site, password, fails).cluster, n);
  }

  lemma SetPasswordAgrees(c: Cluster, n: string, site: Site, password: string, fails: bool)
    requires AgreeReady(c, n, site, SetPassword(password))
    ensures StepAgrees(n, DoSetPassword(c, n, site, password, fails))
  {
    assert EntriesAgree(DoSetPassword(c, n, site, password, fails).cluster, n);
  }

  lemma AddProxyUserAgrees(c: Cluster, n: string, site: Site, password: string, fails: bool)
    requires AgreeReady(c, n, site, AddProxyUser(password))
    ensures StepAgrees(n, DoAddProxyUser(c, n, site, password, fails))
  {
    assert EntriesAgree(DoAddProxyUser(c, n, site, password, fails).cluster, n);
  }

  lemma RestSame(c: Cluster, d: Cluster, n: string, site: Site, stage: Stage, next: Stage)
    requires AgreeReady(c, n, site, stage) && Rank(stage) >= 22 && Rank(next) >= 22
    requires d == c.(crons := d.crons, jobs := d.jobs, ingresses := d.ingresses)
    ensures StepAgrees(n, End(d)) && StepAgrees(n, Next(d, site, next))
  {
    assert EntriesAgree(d, n);
  }

  lemma SyncCronsAgrees(c: Cluster, n: string, site: Site)
    requires AgreeReady(c, n, site, SyncCrons)
    ensures StepAgrees(n, DoSyncCrons(c, site))
  {
    var r := DoSyncCrons(c, site);
    RestSame(c, r.cluster, n, site, SyncCrons, StartJob);
    assert r == End(r.cluster) || r == Next(r.cluster, site, StartJob);
  }

  lemma StartJobAgrees(c: Cluster, n: string, site: Site, ch: Choice)
    requires AgreeReady(c, n, site, StartJob)
    ensures StepAgrees(n, DoStartJob(c, site, ch))
  {
    var r := DoStartJob(c, site, ch);
    StartJobShape(c, site, ch);
    RestSame(c, r.cluster, n, site, StartJob, if r.worker.Busy? then r.worker.stage else Route);
  }

  lemma ClearJobAgrees(c: Cluster, n: string, site: Site, key: string)
    requires AgreeReady(c, n, site, ClearJob(key))
    ensures StepAgrees(n, DoClearJob(c, n, site, key))
  {
    EndWithAgrees(c, n, site, ClearJob(key), site.(annotations := site.annotations - {key}));
  }

  lemma RouteAgrees(c: Cluster, n: string, site: Site)
    requires AgreeReady(c, n, site, Route)
    ensures StepAgrees(n, DoRoute(c, n, site))
  {
    var r := DoRoute(c, n, site);
    assert r.cluster == c.(ingresses := r.cluster.ingresses);
    RestSame(c, r.cluster, n, site, Route, Return);
    assert r == End(r.cluster) || r == Next(r.cluster, site, Return);
  }

  lemma TearDownAgrees(c: Cluster, n: string, site: Site, stage: Stage, ch: Choice)
    requires AgreeReady(c, n, site, stage) && TearsDown(stage)
    ensures StepAgrees(n, TearDown(c, n, site, stage, ch))
  {
    match stage
    case ForgetCredentials => ForgetCredentialsAgrees(c, n, site);
    case ForgetCredentialsWrite(held) => ForgetCredentialsWriteAgrees(c, n, site, held);
    case ForgetDomains => ForgetDomainsAgrees(c, n, site);
    case ForgetDomainsWrite(held) => ForgetDomainsWriteAgrees(c, n, site, held);
    case DropDatabase => DropDatabaseAgrees(c, n, site);
    case DropUser => DropUserAgrees(c, n, site);
    case DropProxyUser => DropProxyUserAgrees(c, n, site, ch.sqlFails);
    case ReleasePassword => ReleasePasswordAgrees(c, n, site);
    case ReleaseSite => ReleaseSiteAgrees(c, n, site);
  }

  lemma ProvisionAgrees(c: Cluster, n: string, site: Site, stage: Stage, ch: Choice)
    requires AgreeReady(c, n, site, stage) && 11 <= Rank(stage) <= 17
    ensures StepAgrees(n, Provision(c, n, site, stage, ch))
  {
    match stage
    case Protect => ProtectAgrees(c, n, site);
    case Link => LinkAgrees(c, n, site);
    case MakePassword => MakePasswordAgrees(c, n, site, ch.password);
    case PublishDomains => PublishDomainsAgrees(c, n, site);
    case PublishDomainsWrite(held) => PublishDomainsWriteAgrees(c, n, site, held);
    case PublishCredentials => PublishCredentialsAgrees(c, n, site);
    case PublishCredentialsWrite(held, entry) => PublishCredentialsWriteAgrees(c, n, site, held, entry);
  }

  lemma DatabaseStagesAgree(c: Cluster, n: string, site: Site, stage: Stage, ch: Choice)
    requires AgreeReady(c, n, site, stage) && 18 <= Rank(stage) <= 21
    ensures StepAgrees(n, Complete(c, n, site, stage, ch))
  {
    match stage
    case CreateDatabase => CreateDatabaseAgrees(c, n, site, ch.sqlFails);
    case CreateUser(pw) => CreateUserAgrees(c, n, site, pw, ch.sqlFails);
    case SetPassword(pw) => SetPasswordAgrees(c, n, site, pw, ch.sqlFails);
    case AddProxyUser(pw) => AddProxyUserAgrees(c, n, site, pw, ch.sqlFails);
  }

  lemma LastStagesAgree(c: Cluster, n: string, site: Site, stage: Stage, ch: Choice)
    requires AgreeReady(c, n, site, stage) && 22 <= Rank(stage)
    ensures StepAgrees(n, Complete(c, n, site, stage, ch))
  {
    match stage
    case SyncCrons => SyncCronsAgrees(c, n, site);
    case StartJob => StartJobAgrees(c, n, site, ch);
    case ClearJob(key) => ClearJobAgrees(c, n, site, key);
    case Route => RouteAgrees(c, n, site);
    case Return =>
  }

  lemma CompleteAgrees(c: Cluster, n: string, site: Site, stage: Stage, ch: Choice)
    requires AgreeReady(c, n, site, stage) && Rank(stage) >= 18
    ensures StepAgrees(n, Complete(c, n, site, stage, ch))
  {
    if Rank(stage) <= 21 {
      DatabaseStagesAgree(c, n, site, stage, ch);
    } else {
      LastStagesAgree(c, n, site, stage, ch);
    }
  }

  lemma AdvanceAgrees(c: Cluster, n: string, site: Site, stage: Stage, ch: Choice)
    requires AgreeReady(c, n, site, stage)
    ensures StepAgrees(n, Advance(c, n, site, stage, ch))
  {
    if stage == AssignId {
      AssignIdAgrees(c, n, site, ch.id);
    } else if TearsDown(stage) {
      TearDownAgrees(c, n, site, stage, ch);
    } else if Rank(stage) <= 17 {
      ProvisionAgrees(c, n, site, stage, ch);
    } else {
      CompleteAgrees(c, n, site, stage, ch);
    }
  }

  // ---- Runs ----

  ghost predicate CredInv(s: State) {
    Inv(s) && forall n :: n in s.names ==> BothAgree(s.cluster, n, s.WorkerOf(n))
  }

  /** A new Site does not take the name of an earlier one whose password Secret is still there. */
  predicate Tidy(s: State, e: Event) {
    e.CreateSite? ==> e.n !in s.cluster.passwords
  }

  predicate TidyRun(s: State, events: seq<Event>)
    requires s.cluster.Valid()
    decreases |events|
  {
    events == [] || (Tidy(s, events[0]) && TidyRun(After(s, events[0]), events[1..]))
  }

  lemma ProceedAgrees(s: State, n: string, ch: Choice, m: string)
    requires CredInv(s) && m in s.names
    ensures var t := AfterProceed(s, n, ch); BothAgree(t.cluster, m, t.WorkerOf(m))
  {
    if s.WorkerOf(n).Busy? {
      var Busy(site, stage) := s.WorkerOf(n);
      if m == n {
        assert SiteHolds(s.cluster, n, s.WorkerOf(n));
        AdvanceAgrees(s.cluster, n, site, stage, ch);
      } else {
        AdvanceHolds(s.cluster, n, s.names, site, stage, ch);
        var d := Advance(s.cluster, n, site, stage, ch).cluster;
        assert Untouched(s.cluster, d, m);
        UntouchedSecrets(s.cluster, d, m, s.names);
        SameSecretsAgree(s.cluster, d, m, s.WorkerOf(m));
      }
    }
  }

  lemma BeginAgrees(c: Cluster, n: string)
    requires c.Valid() && GuardsHold(c, n) && Agrees(c, n)
    ensures BothAgree(c, n, Begin(c, n))
  {
  }

  lemma PutSiteAgrees(c: Cluster, n: string, site: Site, m: string, w: Worker)
    requires c.Valid() && BothAgree(c, m, w)
    requires m == n && !site.deleting ==> (n in c.sites && !c.sites[n].deleting) || n !in c.passwords
    ensures BothAgree(c.PutSite(n, site), m, w)
  {
    var d := c.PutSite(n, site);
    assert EntriesAgree(d, m);
  }

  /** A password Secret that nothing holds vanishes: what still carries the password is a leftover. */
  lemma PasswordRemovedAgrees(c: Cluster, n: string, w: Worker)
    requires c.Valid() && BothAgree(c, n, w) && n in c.passwords && !c.passwords[n].Held()
    ensures BothAgree(c.RemovePassword(n), n, w)
  {
    var d := c.RemovePassword(n);
    assert EntriesAgree(d, n);
    assert n !in d.orphaned ==> DatabaseName(n) !in d.proxyUsers;
  }

  lemma OtherPasswordSame(c: Cluster, d: Cluster, n: string, m: string)
    requires c.Valid() && d.Valid() && n != m && d == c.(passwords := d.passwords, orphaned := d.orphaned)
    requires c.passwords - {n} == d.passwords - {n} && c.orphaned - {n} == d.orphaned - {n}
    ensures SameSecrets(c, d, m)
  {
    SameOutside(c.passwords, d.passwords, n, m);
    assert m in c.orphaned - {n} <==> m in c.orphaned;
  }

  lemma OtherMarkAgrees(c: Cluster, n: string, m: string, w: Worker)
    requires c.Valid() && BothAgree(c, m, w) && n in c.passwords && n != m
    ensures BothAgree(c.PutPassword(n, c.passwords[n].(deleting := true)), m, w)
  {
    var d := c.PutPassword(n, c.passwords[n].(deleting := true));
    PutPasswordShape(c, n, c.passwords[n].(deleting := true));
    OtherPasswordSame(c, d, n, m);
    SameSecretsAgree(c, d, m, w);
  }

  lemma KeptMarkAgrees(c: Cluster, n: string, w: Worker)
    requires c.Valid() && BothAgree(c, n, w) && n in c.passwords && c.passwords[n].finalizers != []
    ensures BothAgree(c.PutPassword(n, c.passwords[n].(deleting := true)), n, w)
  {
    assert EntriesAgree(c.(passwords := c.passwords[n := c.passwords[n].(deleting := true)]), n);
  }

  lemma PasswordMarkAgrees(c: Cluster, n: string, m: string, w: Worker)
    requires c.Valid() && BothAgree(c, m, w) && n in c.passwords
    ensures BothAgree(c.PutPassword(n, c.passwords[n].(deleting := true)), m, w)
  {
    if n != m {
      OtherMarkAgrees(c, n, m, w);
    } else if c.passwords[n].finalizers == [] {
      PasswordRemovedAgrees(c, n, w);
    } else {
      KeptMarkAgrees(c, n, w);
    }
  }

  // Events, each for the site `m`

  ghost predicate AgreesAfter(s: State, e: Event, m: string)
    requires s.cluster.Valid()
  {
    BothAgree(After(s, e).cluster, m, After(s, e).WorkerOf(m))
  }

  lemma WorkerEventAgrees(s: State, e: Event, m: string)
    requires CredInv(s) && OfWorker(e) && m in s.names
    ensures AgreesAfter(s, e, m)
  {
    if e.Proceed? {
      ProceedAgrees(s, e.n, e.choice, m);
    } else {
      IdleEventAgrees(s, e, m);
    }
  }

  lemma IdleEventAgrees(s: State, e: Event, m: string)
    requires CredInv(s) && (e.BeginPass? || e.Abort?) && m in s.names
    ensures AgreesAfter(s, e, m)
  {
    if e.BeginPass? {
      assert SiteHolds(s.cluster, m, s.WorkerOf(m));
      BeginAgrees(s.cluster, m);
    }
  }

  lemma StoreEventAgrees(s: State, e: Event, m: string)
    requires CredInv(s) && Stores(e) && m in s.names
    ensures AgreesAfter(s, e, m)
  {
    if e.DeleteSite? && e.n in s.cluster.sites {
      PutSiteAgrees(s.cluster, e.n, s.cluster.sites[e.n].(deleting := true), m, s.WorkerOf(m));
    }
    if e.EditSite? && MayEdit(s, e.n, e.site) {
      PutSiteAgrees(s.cluster, e.n, e.site, m, s.WorkerOf(m));
    }
  }

  lemma CreateEventAgrees(s: State, e: Event, m: string)
    requires CredInv(s) && e.CreateSite? && Tidy(s, e) && m in s.names
    ensures AgreesAfter(s, e, m)
  {
    if MayCreate(s, e.n, e.site) {
      var c, d := s.cluster, s.cluster.PutSite(e.n, e.site);
      PutSiteAgrees(c, e.n, e.site, m, s.WorkerOf(m));
      NewIdAgrees(c, d, e.n, e.site, m, s.WorkerOf(m));
    }
  }

  lemma NewIdAgrees(c: Cluster, d: Cluster, n: string, site: Site, m: string, w: Worker)
    requires c.Valid() && SharedGlobal(c) && site.Id() !in c.ids && d == c.PutSite(n, site) && BothAgree(d, m, w)
    ensures BothAgree(Created(c, n, site), m, w)
  {
    SameSecretsAgree(d, Created(c, n, site), m, w);
  }

  lemma PasswordEventAgrees(s: State, e: Event, m: string)
    requires CredInv(s) && e.DeletePassword? && m in s.names
    ensures AgreesAfter(s, e, m)
  {
    if MayDeletePassword(s, e.n) {
      PasswordMarkAgrees(s.cluster, e.n, m, s.WorkerOf(m));
    }
  }

  lemma OtherEventAgrees(s: State, e: Event, m: string)
    requires CredInv(s) && (OfSharedObject(e) || OfSurroundings(e)) && m in s.names
    ensures AgreesAfter(s, e, m)
  {
    OtherEventSame(s, e, m);
    SameSecretsAgree(s.cluster, After(s, e).cluster, m, s.WorkerOf(m));
  }

  lemma DomainsEventSame(s: State, e: Event, m: string)
    requires s.cluster.Valid() && OfDomains(e)
    ensures SameSecrets(s.cluster, After(s, e).cluster, m) && After(s, e).workers == s.workers
  {
    var d := After(s, e).cluster;
    assert d == s.cluster.(domains := d.domains);
  }

  lemma CredentialsEventSame(s: State, e: Event, m: string)
    requires s.cluster.Valid() && OfSharedObject(e) && !OfDomains(e)
    ensures SameSecrets(s.cluster, After(s, e).cluster, m) && After(s, e).workers == s.workers
  {
    var d := After(s, e).cluster;
    assert d == s.cluster.(credentials := d.credentials);
  }

  lemma SurroundingsSame(s: State, e: Event, m: string)
    requires s.cluster.Valid() && OfSurroundings(e)
    ensures SameSecrets(s.cluster, After(s, e).cluster, m) && After(s, e).workers == s.workers
  {
    var c, d := s.cluster, After(s, e).cluster;
    assert d == c.(proxyService := d.proxyService, parents := d.parents, crons := d.crons,
                   jobs := d.jobs, ingresses := d.ingresses);
  }

  lemma OtherEventSame(s: State, e: Event, m: string)
    requires s.cluster.Valid() && (OfSharedObject(e) || OfSurroundings(e))
    ensures SameSecrets(s.cluster, After(s, e).cluster, m) && After(s, e).workers == s.workers
  {
    if OfDomains(e) {
      DomainsEventSame(s, e, m);
    } else if OfSharedObject(e) {
      CredentialsEventSame(s, e, m);
    } else {
      SurroundingsSame(s, e, m);
    }
  }

  lemma EventAgrees(s: State, e: Event, m: string)
    requires CredInv(s) && Tidy(s, e) && m in s.names
    ensures AgreesAfter(s, e, m)
  {
    if OfWorker(e) {
      WorkerEventAgrees(s, e, m);
    } else if Stores(e) {
      StoreEventAgrees(s, e, m);
    } else if e.CreateSite? {
      CreateEventAgrees(s, e, m);
    } else if e.DeletePassword? {
      PasswordEventAgrees(s, e, m);
    } else {
      OtherEventAgrees(s, e, m);
    }
  }

  lemma EventKeepsCredInv(s: State, e: Event)
    requires CredInv(s) && Tidy(s, e)
    ensures CredInv(After(s, e))
  {
    EventKeepsInv(s, e);
    forall m | m in s.names ensures BothAgree(After(s, e).cluster, m, After(s, e).WorkerOf(m)) {
      EventAgrees(s, e, m);
    }
  }

  lemma {:induction false} RunKeepsCredInv(s: State, events: seq<Event>)
    requires CredInv(s) && TidyRun(s, events)
    ensures CredInv(Run(s, events))
    decreases |events|
  {
    if events != [] {
      EventKeepsCredInv(s, events[0]);
      RunKeepsCredInv(After(s, events[0]), events[1..]);
    }
  }

  lemma InitialAgrees(s: State)
    requires Initial(s)
    ensures CredInv(s)
  {
    InitialHolds(s);
  }

  /** Credential agreement in every tidy run: MySQL's password, once set, and every entry of the
      site in the shared Secret are those of its password Secret, which is held as long as either
      exists; so is ProxySQL's, unless a row has outlived an earlier Secret of this name. */
  lemma CredentialAgreement(s: State, events: seq<Event>, n: string)
    requires Initial(s) && TidyRun(s, events) && n in s.names
    ensures var c := Run(s, events).cluster; UserAgrees(c, n) && EntriesAgree(c, n) && ProxyAgrees(c, n)
  {
    InitialAgrees(s);
    RunKeepsCredInv(s, events);
  }

  // ---- What the two conditions are needed for ----

  /** What is recorded when an unheld password Secret goes is a ProxySQL row or nothing. */
  lemma RemovalOrphansIff(c: Cluster, n: string)
    requires c.Valid() && n !in c.orphaned && DatabaseName(n) !in c.users
    requires forall id :: id in c.LiveCredentials() && id in c.ids ==> c.ids[id] != n
    ensures n in c.RemovePassword(n).orphaned <==> DatabaseName(n) in c.proxyUsers
  {
  }

  /** Releasing the Secret makes the name an orphan exactly if that removes a Secret that was marked
      for deletion while the ProxySQL row is still there: the service was gone, or error 1045. */
  lemma ReleaseOrphansIff(c: Cluster, n: string, site: Site)
    requires AgreeReady(c, n, site, ReleasePassword) && n !in c.orphaned
    ensures var d := DoReleasePassword(c, n, site).cluster;
            n in d.orphaned <==> n in c.passwords && n !in d.passwords && DatabaseName(n) in c.proxyUsers
  {
    NothingLeft(c, n, site);
    RemovalOrphansIff(c, n);
    if c.PasswordHeld(n) {
      PutPasswordShape(c, n, c.passwords[n].(finalizers := Without(c.passwords[n].finalizers, PASSWORD_FINALIZER)));
    }
  }

  /** ProxySQL keeps the row that it has, so a row of an earlier password stays wrong. */
  lemma AddProxyUserAgreesIff(c: Cluster, n: string, site: Site)
    requires c.Valid() && n in c.passwords
    ensures var d := DoAddProxyUser(c, n, site, c.passwords[n].password, false).cluster; var db := DatabaseName(n);
            db in d.proxyUsers
            && (d.proxyUsers[db] == c.passwords[n].password <==>
                db !in c.proxyUsers || c.proxyUsers[db] == c.passwords[n].password)
  {
  }

  lemma CreationShape(s: State, n: string, site: Site)
    requires s.cluster.Valid() && MayCreate(s, n, site)
    ensures var t := After(s, CreateSite(n, site));
            && t.cluster.passwords == s.cluster.passwords
            && n in t.cluster.sites && t.cluster.sites[n].deleting == site.deleting
  {
    PutSiteShape(s.cluster, n, site);
  }

  /** A leftover Secret of the name carries no finalizer any more, so the new Site does not hold it. */
  lemma LeftoverIsUnheld(s: State, n: string)
    requires Inv(s) && n in s.names && n !in s.cluster.sites
    ensures !s.cluster.PasswordHeld(n)
  {
    assert SiteHolds(s.cluster, n, s.WorkerOf(n));
  }

  /** Creating a Site keeps the agreement exactly if no password Secret of that name is left. */
  lemma CreationAgreesIff(s: State, n: string, site: Site)
    requires CredInv(s) && MayCreate(s, n, site)
    ensures CredInv(After(s, CreateSite(n, site))) <==> n !in s.cluster.passwords
  {
    var t := After(s, CreateSite(n, site));
    if n in s.cluster.passwords {
      LeftoverIsUnheld(s, n);
      CreationShape(s, n, site);
      assert !SecretServes(t.cluster, n) && n in t.names;
    } else {
      EventKeepsCredInv(s, CreateSite(n, site));
    }
  }
}
