/** The budget of passes that a Site needs, and the state in which it comes to rest. */
module SiteProgress {
  import opened Options
  import opened SiteTypes
  import opened LabelSync
  import opened Cluster
  import opened Crons
  import opened SiteWorker
  import opened SitePass
  import opened SiteConvergence

  ghost predicate CronsSteady(c: Cluster, n: string)
    requires n in c.sites
  {
    UniqueCrons(c.crons) && Consistent(c.sites[n])
  }

  predicate JobFits(c: Cluster, site: Site, key: string, ch: Choice) {
    key in site.annotations ==>
      var command := CommandOf(site, key, ch);
      command.Some? && command.value != [] && JobName(key, command.value, ch.digest) !in c.jobs
  }

  /** The commands can be read, are not empty, and their jobs do not exist yet. */
  predicate JobsFit(c: Cluster, n: string, ch: Choice)
    requires n in c.sites
  {
    JobFits(c, c.sites[n], RUN_JOB, ch) && JobFits(c, c.sites[n], RUN_ROOT_JOB, ch)
  }

  /** The annotations that still ask for a job. */
  function Pending(site: Site): nat {
    (if RUN_JOB in site.annotations then 1 else 0) + (if RUN_ROOT_JOB in site.annotations then 1 else 0)
  }

  /** How many more passes ask for another one, at most: the early writes, the CronJobs that are
      unwanted, missing or out of date, and the jobs.  Linking can change every CronJob's labels, so
      before it all of them count. */
  function Budget(c: Cluster, n: string): nat
    requires c.Valid() && n in c.sites
  {
    var site := c.sites[n];
    (6 - FirstUnmet(c, n)) + Pending(site)
    + (if FirstUnmet(c, n) < 6 then |c.crons| + |site.spec.crons| else CronWork(c.crons, site))
  }

  /** A stored Site that differs only in what passes may write. */
  predicate SameSpec(a: Site, b: Site) {
    b == a.(version := b.version, labels := b.labels, finalizers := b.finalizers,
            controller := b.controller, annotations := b.annotations)
  }

  /** What a pass before the databases leaves as it is. */
  predicate EarlyFrame(c: Cluster, d: Cluster, n: string) {
    && n in c.sites && n in d.sites && SameSpec(c.sites[n], d.sites[n])
    && d.sites[n].annotations == c.sites[n].annotations
    && d.crons == c.crons && d.jobs == c.jobs && d.ingresses == c.ingresses
  }

  lemma IdProgress(c: Cluster, n: string, ch: Choice)
    requires Supported(c, n) && FirstUnmet(c, n) == 0 && ch.id != "" && ch.id !in c.ids
    ensures var d := Started(c, n, ch); Supported(d, n) && EarlyFrame(c, d, n) && FirstUnmet(d, n) > 0
  {
  }

  lemma ProtectProgress(c: Cluster, n: string, ch: Choice)
    requires Supported(c, n) && FirstUnmet(c, n) == 1
    ensures var d := Started(c, n, ch); Supported(d, n) && EarlyFrame(c, d, n) && FirstUnmet(d, n) > 1
  {
  }

  lemma LinkProgress(c: Cluster, n: string, ch: Choice)
    requires Supported(c, n) && FirstUnmet(c, n) == 2
    ensures var d := Started(c, n, ch); Supported(d, n) && EarlyFrame(c, d, n) && FirstUnmet(d, n) > 2
  {
    var site := c.sites[n];
    SyncedLabelsMeaning(c.parents[site.spec.environment], site.labels, LABEL_PREFIX);
  }

  lemma PasswordProgress(c: Cluster, n: string, ch: Choice)
    requires Supported(c, n) && FirstUnmet(c, n) == 3
    ensures var d := Started(c, n, ch); Supported(d, n) && EarlyFrame(c, d, n) && FirstUnmet(d, n) > 3
  {
  }

  lemma DomainsProgress(c: Cluster, n: string, ch: Choice)
    requires Supported(c, n) && FirstUnmet(c, n) == 4
    ensures var d := Started(c, n, ch); Supported(d, n) && EarlyFrame(c, d, n) && FirstUnmet(d, n) > 4
  {
  }

  lemma CredentialsProgress(c: Cluster, n: string, ch: Choice)
    requires Supported(c, n) && FirstUnmet(c, n) == 5
    ensures var d := Started(c, n, ch); Supported(d, n) && EarlyFrame(c, d, n) && FirstUnmet(d, n) > 5
  {
  }

  /** Each early pass meets one more of the six needs and keeps the earlier ones. */
  lemma EarlyProgress(c: Cluster, n: string, ch: Choice)
    requires Supported(c, n) && FirstUnmet(c, n) < 6 && (FirstUnmet(c, n) == 0 ==> ch.id != "" && ch.id !in c.ids)
    ensures var d := Started(c, n, ch); Supported(d, n) && EarlyFrame(c, d, n) && FirstUnmet(d, n) > FirstUnmet(c, n)
  {
    if FirstUnmet(c, n) == 0 {
      IdProgress(c, n, ch);
    } else if FirstUnmet(c, n) == 1 {
      ProtectProgress(c, n, ch);
    } else if FirstUnmet(c, n) == 2 {
      LinkProgress(c, n, ch);
    } else if FirstUnmet(c, n) == 3 {
      PasswordProgress(c, n, ch);
    } else if FirstUnmet(c, n) == 4 {
      DomainsProgress(c, n, ch);
    } else {
      CredentialsProgress(c, n, ch);
    }
  }

  lemma EarlyBudget(c: Cluster, d: Cluster, n: string)
    requires Supported(c, n) && Supported(d, n) && EarlyFrame(c, d, n) && FirstUnmet(d, n) > FirstUnmet(c, n)
    ensures Budget(d, n) < Budget(c, n)
    ensures CronsSteady(c, n) ==> CronsSteady(d, n)
    ensures forall ch :: JobsFit(c, n, ch) ==> JobsFit(d, n, ch)
  {
  }

  // ---- After the early writes ----

  lemma DatabaseFrame(c: Cluster, n: string)
    requires Supported(c, n) && FirstUnmet(c, n) == 6
    ensures var e := WithDatabase(c, n);
            Supported(e, n) && FirstUnmet(e, n) == 6
              && e == c.(databases := e.databases, users := e.users, proxyUsers := e.proxyUsers)
  {
  }

  lemma CronProgress(c: Cluster, n: string)
    requires Supported(c, n) && FirstUnmet(c, n) == 6 && CronsSteady(c, n) && !CronsSettled(c.crons, c.sites[n])
    ensures var d := c.(crons := CronPass(c.crons, c.sites[n]));
            Supported(d, n) && FirstUnmet(d, n) == 6 && CronsSteady(d, n) && Budget(d, n) < Budget(c, n)
  {
    CronPassProgress(c.crons, c.sites[n]);
  }

  /** CronJobs do not depend on the annotations or the version of the Site. */
  lemma {:induction false} SameWork(crons: seq<CronJob>, a: Site, b: Site, specs: seq<CronSpec>)
    requires b == a.(version := b.version, annotations := b.annotations)
    ensures CountUnsettled(crons, b, specs) == CountUnsettled(crons, a, specs)
    decreases |specs|
  {
    if specs != [] {
      assert CustomerCronJob(b, specs[0]) == CustomerCronJob(a, specs[0]);
      SameWork(crons, a, b, specs[1..]);
    }
  }

  lemma SameConsistent(a: Site, b: Site)
    requires SameSpec(a, b) && Consistent(a)
    ensures Consistent(b)
  {
    forall i, j | 0 <= i < |b.spec.crons| && 0 <= j < |b.spec.crons| && b.spec.crons[i].name == b.spec.crons[j].name
      ensures CustomerCronJob(b, b.spec.crons[i]) == CustomerCronJob(b, b.spec.crons[j])
    {
      assert CustomerCronJob(a, a.spec.crons[i]) == CustomerCronJob(a, a.spec.crons[j]);
    }
  }

  lemma JobFrame(c: Cluster, n: string, key: string, name: string)
    requires Supported(c, n) && FirstUnmet(c, n) == 6
    ensures var d := JobDone(c.(jobs := c.jobs + {name}), n, key);
            && Supported(d, n) && FirstUnmet(d, n) == 6 && d.crons == c.crons && d.jobs == c.jobs + {name}
            && d.sites[n] == c.sites[n].(version := d.sites[n].version, annotations := c.sites[n].annotations - {key})
  {
  }

  lemma JobProgress(c: Cluster, n: string, key: string, name: string)
    requires Supported(c, n) && FirstUnmet(c, n) == 6 && CronsSteady(c, n)
    requires key in c.sites[n].annotations && (key == RUN_JOB || key == RUN_ROOT_JOB)
    ensures var d := JobDone(c.(jobs := c.jobs + {name}), n, key);
            Supported(d, n) && CronsSteady(d, n) && Budget(d, n) < Budget(c, n)
  {
    var d := JobDone(c.(jobs := c.jobs + {name}), n, key);
    JobFrame(c, n, key, name);
    SameWork(c.crons, c.sites[n], d.sites[n], c.sites[n].spec.crons);
    SameConsistent(c.sites[n], d.sites[n]);
  }

  /** The other job's name begins differently, so it is still free. */
  lemma JobsStillFit(c: Cluster, n: string, key: string, ch: Choice)
    requires Supported(c, n) && FirstUnmet(c, n) == 6 && JobsFit(c, n, ch)
    requires key in c.sites[n].annotations && (key == RUN_JOB || key == RUN_ROOT_JOB)
    ensures var job := JobName(key, CommandOf(c.sites[n], key, ch).value, ch.digest);
            var d := JobDone(c.(jobs := c.jobs + {job}), n, key);
            n in d.sites && JobsFit(d, n, ch)
  {
    JobFrame(c, n, key, JobName(key, CommandOf(c.sites[n], key, ch).value, ch.digest));
    forall a: seq<string>, b: seq<string>
      ensures JobName(RUN_JOB, a, ch.digest) != JobName(RUN_ROOT_JOB, b, ch.digest)
    {
      assert JobName(RUN_JOB, a, ch.digest)[0] == 'c' && JobName(RUN_ROOT_JOB, b, ch.digest)[0] == 'r';
    }
  }

  // ---- Passes in a row ----

  /** What the surroundings give to a pass: fresh Ids, working SQL, and the libraries that read and
      hash a command. */
  ghost predicate Fits(c: Cluster, n: string, ch: Choice) {
    && Supported(c, n) && CronsSteady(c, n) && JobsFit(c, n, ch) && !ch.sqlFails
    && (c.sites[n].Id() == "" ==> ch.id != "" && ch.id !in c.ids)
  }

  /** What a pass that does not return makes of the cluster, and leaves to the next. */
  ghost predicate Progresses(c: Cluster, d: Cluster, n: string, ch: Choice)
    requires Supported(c, n)
  {
    Supported(d, n) && CronsSteady(d, n) && JobsFit(d, n, ch) && d.sites[n].Id() != "" && Budget(d, n) < Budget(c, n)
  }

  lemma StartedProgress(c: Cluster, n: string, ch: Choice)
    requires Fits(c, n, ch) && FirstUnmet(c, n) < 6
    ensures Progresses(c, Started(c, n, ch), n, ch)
  {
    EarlyProgress(c, n, ch);
    EarlyBudget(c, Started(c, n, ch), n);
  }

  lemma FinishedProgress(c: Cluster, n: string, ch: Choice)
    requires Fits(c, n, ch) && FirstUnmet(c, n) == 6 && !AtRest(c, n)
    ensures Progresses(c, Finished(c, n, ch).cluster, n, ch)
  {
    if !CronsSettled(c.crons, c.sites[n]) {
      CronProgress(c, n);
    } else {
      var key := NextJob(c.sites[n].annotations, ch.rootFirst).value;
      JobProgress(c, n, key, JobName(key, CommandOf(c.sites[n], key, ch).value, ch.digest));
      JobsStillFit(c, n, key, ch);
    }
  }

  lemma ServedProgress(c: Cluster, n: string, ch: Choice)
    requires Fits(c, n, ch) && !AtRest(c, n)
    ensures Progresses(c, Served(c, n, ch), n, ch)
  {
    if FirstUnmet(c, n) < 6 {
      StartedProgress(c, n, ch);
    } else {
      DatabaseFrame(c, n);
      FinishedProgress(WithDatabase(c, n), n, ch);
    }
  }

  lemma CurrentFits(c: Cluster, n: string, ch: Choice)
    requires Fits(c, n, ch)
    ensures Fits(Current(c), n, ch) && Budget(Current(c), n) == Budget(c, n)
  {
    CurrentIsSame(c, n);
  }

  /** A pass that finds something to do asks for another one and takes from the budget. */
  lemma PassProgress(c: Cluster, n: string, ch: Choice)
    requires Fits(c, n, ch) && !AtRest(c, n)
    ensures Progresses(c, Pass(c, n, ch), n, ch) && !Returns(c, n, ch)
  {
    PassServes(c, n, ch);
    CurrentIsSame(c, n);
    CurrentFits(c, n, ch);
    ServedProgress(Current(c), n, ch);
  }

  // ---- At rest ----

  /** What a pass over a Site at rest makes of the cluster. */
  function Rested(c: Cluster, n: string): Cluster
    requires Supported(c, n) && AtRest(c, n)
  {
    if RoutingCrashes(c, n) then WithDatabase(c, n) else WithIngress(WithDatabase(c, n), n)
  }

  lemma DatabaseAgain(c: Cluster, n: string)
    requires n in c.passwords
    ensures WithDatabase(WithDatabase(c, n), n) == WithDatabase(c, n)
  {
    var e, db := WithDatabase(c, n), DatabaseName(n);
    if c.proxyService {
      assert e.databases + {db} == e.databases;
      assert e.users[db := Some(c.passwords[n].password)] == e.users;
    }
  }

  lemma IngressAgain(n: string, site: Site, existing: Option<Ingress>)
    ensures var i := RoutedIngress(n, site, existing); RoutedIngress(n, site, Some(i)) == i && i.annotations != map[]
  {
    assert CERT_ISSUER in RoutedIngress(n, site, existing).annotations;
  }

  lemma RoutedAgain(c: Cluster, n: string)
    requires n in c.sites
    ensures var d := WithIngress(c, n);
            && n in d.ingresses && RoutedIngress(n, c.sites[n], Some(d.ingresses[n])) == d.ingresses[n]
            && d.ingresses[n].annotations != map[]
  {
    IngressAgain(n, c.sites[n], if n in c.ingresses then Some(c.ingresses[n]) else None);
  }

  lemma IngressClusterAgain(c: Cluster, n: string)
    requires n in c.sites
    ensures WithIngress(WithIngress(c, n), n) == WithIngress(c, n) && !RoutingCrashes(WithIngress(c, n), n)
  {
    RoutedAgain(c, n);
    var d := WithIngress(c, n);
    assert d.sites == c.sites && d.ingresses[n := d.ingresses[n]] == d.ingresses;
  }

  lemma DatabaseThenIngress(c: Cluster, n: string)
    requires n in c.sites && n in c.passwords && WithDatabase(c, n) == c
    ensures WithDatabase(WithIngress(c, n), n) == WithIngress(c, n)
  {
  }

  lemma RestedStays(c: Cluster, d: Cluster, n: string)
    requires Supported(c, n) && AtRest(c, n)
    requires d == c.(databases := d.databases, users := d.users, proxyUsers := d.proxyUsers, ingresses := d.ingresses)
    ensures Supported(d, n) && AtRest(d, n)
  {
  }

  lemma RestedAgain(c: Cluster, n: string)
    requires Supported(c, n) && AtRest(c, n)
    ensures var d := Rested(c, n);
            Supported(d, n) && AtRest(d, n) && (RoutingCrashes(d, n) <==> RoutingCrashes(c, n)) && Rested(d, n) == d
  {
    var e := WithDatabase(c, n);
    DatabaseAgain(c, n);
    RestedStays(c, Rested(c, n), n);
    if !RoutingCrashes(c, n) {
      DatabaseThenIngress(e, n);
      IngressClusterAgain(e, n);
    }
  }

  lemma ServedIsRested(c: Cluster, n: string, ch: Choice)
    requires Supported(c, n) && AtRest(c, n)
    ensures Served(c, n, ch) == Rested(c, n)
  {
    var e := WithDatabase(c, n);
    assert e.ingresses == c.ingresses && e.crons == c.crons && e.sites == c.sites;
  }

  /** A pass over a Site at rest returns, unless the Ingress makes it crash. */
  lemma PassRests(c: Cluster, n: string, ch: Choice)
    requires Supported(c, n) && AtRest(c, n) && !ch.sqlFails
    ensures Supported(Current(c), n) && AtRest(Current(c), n) && Pass(c, n, ch) == Rested(Current(c), n)
    ensures Returns(c, n, ch) <==> !RoutingCrashes(c, n)
  {
    CurrentIsSame(c, n);
    PassServes(c, n, ch);
    ServedIsRested(Current(c), n, ch);
  }

  lemma RestedShares(c: Cluster, n: string)
    requires Supported(c, n) && AtRest(c, n)
    ensures Rested(c, n).domains == c.domains && Rested(c, n).credentials == c.credentials
  {
  }

  lemma CurrentAgain(d: Cluster)
    requires CurrentReads(d)
    ensures Current(d) == d
  {
  }

  lemma RestedIsCurrent(c: Cluster, n: string)
    requires Supported(c, n) && AtRest(c, n) && CurrentReads(c)
    ensures Rested(c, n).Valid() && Current(Rested(c, n)) == Rested(c, n)
  {
    RestedShares(c, n);
    CurrentAgain(Rested(c, n));
  }

  lemma RestedIsFixed(c: Cluster, n: string, next: Choice)
    requires Supported(c, n) && AtRest(c, n) && CurrentReads(c) && !next.sqlFails
    ensures var d := Rested(c, n);
            Supported(d, n) && Pass(d, n, next) == d && (Returns(d, n, next) <==> !RoutingCrashes(c, n))
  {
    RestedAgain(c, n);
    RestedIsCurrent(c, n);
    PassRests(Rested(c, n), n, next);
  }

  /** The pass that returns leaves a cluster that no later pass changes. */
  lemma NothingMoreChanges(c: Cluster, n: string, ch: Choice, next: Choice)
    requires Supported(c, n) && Returns(c, n, ch) && !ch.sqlFails && !next.sqlFails
    requires c.sites[n].Id() == "" ==> ch.id != "" && ch.id !in c.ids
    ensures var d := Pass(c, n, ch); Supported(d, n) && Returns(d, n, next) && Pass(d, n, next) == d
  {
    PassServes(c, n, ch);
    PassRests(c, n, ch);
    RestedIsFixed(Current(c), n, next);
  }

  /** Exactly the listed domains, each with the name of the site's database. */
  ghost predicate MapsDomains(m: DomainMap, n: string, spec: SiteSpec) {
    (forall d :: d in m <==> d in spec.domains) && (forall d :: d in m ==> m[d] == DatabaseName(n))
  }

  predicate Credits(e: Database, n: string, password: string) {
    && e.host == "proxysql" && e.port == "6033"
    && e.name == DatabaseName(n) && e.user == DatabaseName(n) && e.password == password
  }

  /** A rule to the service `drupal` for each domain in order, the TLS section if the Site asks for it,
      and the two annotations. */
  predicate Routed(i: Ingress, n: string, spec: SiteSpec) {
    && |i.rules| == |spec.domains|
    && (forall k :: 0 <= k < |i.rules| ==>
          && i.rules[k].host == spec.domains[k] && i.rules[k].path == "/"
          && i.rules[k].service == "drupal" && i.rules[k].port == 80)
    && (i.tls.Some? <==> spec.tls)
    && (spec.tls ==> i.tls.value.hosts == spec.domains && i.tls.value.secretName == n + "-tls-secret")
    && "certmanager.k8s.io/cluster-issuer" in i.annotations
    && i.annotations["certmanager.k8s.io/cluster-issuer"]
       == (if spec.certIssuer == "" then "letsencrypt-staging" else spec.certIssuer)
    && "kubernetes.io/ingress.class" in i.annotations
    && i.annotations["kubernetes.io/ingress.class"] == (if spec.ingressClass == "" then "nginx" else spec.ingressClass)
  }

  /** Finalizer, Id, owner and the environment's labels. */
  predicate Adopted(site: Site, parents: map<string, Labels>) {
    && "sites.fnresources.acquia.io" in site.finalizers && site.Id() != ""
    && site.controller == site.spec.environment && site.spec.environment in parents
    && var parent := parents[site.spec.environment];
       forall k :: k in parent && "fnresources.acquia.io/" <= k ==> k in site.labels && site.labels[k] == parent[k]
  }

  /** Both shared objects have the site's entry. */
  ghost predicate Announced(d: Cluster, n: string)
    requires d.Valid() && n in d.sites && n in d.passwords
  {
    var id := d.sites[n].Id();
    && id in d.LiveDomains() && MapsDomains(d.LiveDomains()[id], n, d.sites[n].spec)
    && id in d.LiveCredentials() && Credits(d.LiveCredentials()[id], n, d.passwords[n].password)
  }

  /** All that a Site asks for. */
  ghost predicate FullyServed(d: Cluster, n: string)
    requires Supported(d, n)
  {
    var site := d.sites[n];
    && Adopted(site, d.parents) && n in d.passwords && Announced(d, n)
    && (d.proxyService ==> DatabaseName(n) in d.databases && DatabaseName(n) in d.proxyUsers)
    && (d.proxyService ==> DatabaseName(n) in d.users && d.users[DatabaseName(n)] == Some(d.passwords[n].password))
    && (d.proxyService ==> forall x :: x in d.LiveDomains()[site.Id()] ==> d.LiveDomains()[site.Id()][x] in d.databases)
    && (forall k :: k in d.crons && Owned(k, site.Id()) ==> Named(site.spec.crons, k.name))
    && (forall s :: s in site.spec.crons ==> UpToDate(d.crons, site, s))
    && "fnresources.acquia.io/runJob" !in site.annotations && "fnresources.acquia.io/runRootJob" !in site.annotations
    && n in d.ingresses && Routed(d.ingresses[n], n, site.spec)
  }

  /** What holds once a pass has returned. */
  lemma RestMeaning(c: Cluster, n: string, ch: Choice)
    requires Supported(c, n) && Returns(c, n, ch) && !ch.sqlFails
    requires c.sites[n].Id() == "" ==> ch.id != "" && ch.id !in c.ids
    ensures var d := Pass(c, n, ch); Supported(d, n) && AtRest(d, n) && FullyServed(d, n)
  {
    PassServes(c, n, ch);
    PassRests(c, n, ch);
    RestedAgain(Current(c), n);
    RestedMeaning(Current(c), n);
  }

  lemma RestedMeaning(c: Cluster, n: string)
    requires Supported(c, n) && AtRest(c, n) && !RoutingCrashes(c, n)
    ensures var d := Rested(c, n); Supported(d, n) && FullyServed(d, n)
  {
    var site, d := c.sites[n], Rested(c, n);
    RestedAgain(c, n);
    RestAdopts(c, n);
    RestAnnounces(c, n);
    SettledMeaning(c.crons, site);
    RestRoutes(c, n);
    assert d.sites == c.sites && d.parents == c.parents && d.passwords == c.passwords && d.crons == c.crons;
    assert d.domains == c.domains && d.credentials == c.credentials;
  }

  lemma RestAdopts(c: Cluster, n: string)
    requires Supported(c, n) && AtRest(c, n)
    ensures Adopted(c.sites[n], c.parents)
  {
    var site := c.sites[n];
    assert LinkedTo(c, site);
    SyncedLabelsMeaning(c.parents[site.spec.environment], site.labels, LABEL_PREFIX);
  }

  lemma RestAnnounces(c: Cluster, n: string)
    requires Supported(c, n) && AtRest(c, n)
    ensures n in c.passwords && Announced(c, n)
  {
    assert Published(c.domains, c.sites[n].Id(), DomainMapOf(n, c.sites[n].spec));
  }

  lemma RestRoutes(c: Cluster, n: string)
    requires Supported(c, n) && AtRest(c, n) && !RoutingCrashes(c, n)
    ensures var d := Rested(c, n); n in d.ingresses && Routed(d.ingresses[n], n, c.sites[n].spec)
  {
    RoutedIsRouted(n, c.sites[n], if n in c.ingresses then Some(c.ingresses[n]) else None);
  }

  lemma RoutedIsRouted(n: string, site: Site, existing: Option<Ingress>)
    ensures Routed(RoutedIngress(n, site, existing), n, site.spec)
  {
    assert CERT_ISSUER != INGRESS_CLASS by { assert CERT_ISSUER[0] != INGRESS_CLASS[0]; }
  }

  // ---- Convergence ----

  /** One pass after the other. */
  function Passes(c: Cluster, n: string, choices: seq<Choice>): (d: Cluster)
    requires c.Valid()
    ensures d.Valid()
    decreases |choices|
  {
    if choices == [] then c else Passes(Pass(c, n, choices[0]), n, choices[1..])
  }

  /** The same libraries in every pass, no SQL failure, and a fresh Id for the first pass. */
  ghost predicate AllFit(c: Cluster, n: string, choices: seq<Choice>) {
    forall i :: 0 <= i < |choices| ==>
      Fits(c, n, choices[i]) && choices[i].parse == choices[0].parse && choices[i].digest == choices[0].digest
  }

  lemma FitsNext(c: Cluster, d: Cluster, n: string, ch: Choice, next: Choice)
    requires Fits(c, n, next) && Fits(c, n, ch) && Progresses(c, d, n, ch) && next.parse == ch.parse
             && next.digest == ch.digest
    ensures Fits(d, n, next)
  {
  }

  lemma RestFits(c: Cluster, n: string, ch: Choice, next: Choice)
    requires Fits(c, n, ch) && Fits(c, n, next) && AtRest(c, n)
    ensures Fits(Pass(c, n, ch), n, next) && AtRest(Pass(c, n, ch), n)
  {
    PassRests(c, n, ch);
    RestedAgain(Current(c), n);
  }

  lemma NextFits(c: Cluster, n: string, ch: Choice, next: Choice)
    requires Fits(c, n, ch) && Fits(c, n, next) && next.parse == ch.parse && next.digest == ch.digest
    ensures Fits(Pass(c, n, ch), n, next)
  {
    PassServes(c, n, ch);
    if AtRest(c, n) {
      RestFits(c, n, ch, next);
    } else {
      PassProgress(c, n, ch);
      FitsNext(c, Pass(c, n, ch), n, ch, next);
    }
  }

  lemma RestOrProgress(c: Cluster, n: string, ch: Choice)
    requires Fits(c, n, ch)
    ensures var d := Pass(c, n, ch);
            Supported(d, n) && if AtRest(c, n) then AtRest(d, n) else Budget(d, n) < Budget(c, n)
  {
    PassServes(c, n, ch);
    if AtRest(c, n) {
      RestFits(c, n, ch, ch);
    } else {
      PassProgress(c, n, ch);
    }
  }

  lemma AllFitNext(c: Cluster, n: string, choices: seq<Choice>)
    requires choices != [] && AllFit(c, n, choices)
    ensures AllFit(Pass(c, n, choices[0]), n, choices[1..])
  {
    forall i | 0 <= i < |choices[1..]| ensures Fits(Pass(c, n, choices[0]), n, choices[1..][i]) {
      NextFits(c, n, choices[0], choices[i + 1]);
    }
  }

  lemma BudgetZero(c: Cluster, n: string)
    requires c.Valid() && n in c.sites && Budget(c, n) == 0
    ensures AtRest(c, n)
  {
    CountUnwantedZero(c.crons, c.sites[n].Id(), c.sites[n].spec.crons);
    CountUnsettledZero(c.crons, c.sites[n], c.sites[n].spec.crons);
  }

  /** Convergence: as many passes as the budget says are enough, whatever the order in which they
      start jobs; the Site is then at rest, so the next pass returns and the one after it changes
      nothing. */
  lemma {:induction false} PassesConverge(c: Cluster, n: string, choices: seq<Choice>)
    requires Supported(c, n) && AllFit(c, n, choices) && (AtRest(c, n) || |choices| >= Budget(c, n))
    ensures var d := Passes(c, n, choices); Supported(d, n) && AtRest(d, n)
    decreases |choices|
  {
    if choices != [] {
      RestOrProgress(c, n, choices[0]);
      AllFitNext(c, n, choices);
      PassesConverge(Pass(c, n, choices[0]), n, choices[1..]);
    } else if !AtRest(c, n) {
      BudgetZero(c, n);
    }
  }

  // ---- An Ingress without annotations ----

  lemma FinishedKeepsIngresses(c: Cluster, n: string, ch: Choice)
    requires n in c.sites && Finished(c, n, ch).last != Return
    ensures Finished(c, n, ch).cluster.ingresses == c.ingresses
  {
  }

  lemma ServedKeepsIngresses(c: Cluster, n: string, ch: Choice)
    requires Fits(c, n, ch) && !AtRest(c, n)
    ensures Served(c, n, ch).ingresses == c.ingresses
  {
    if FirstUnmet(c, n) < 6 {
      EarlyProgress(c, n, ch);
    } else {
      DatabaseFrame(c, n);
      FinishedReturns(WithDatabase(c, n), n, ch);
      FinishedKeepsIngresses(WithDatabase(c, n), n, ch);
    }
  }

  lemma PassKeepsCrashing(c: Cluster, n: string, ch: Choice)
    requires Fits(c, n, ch)
    ensures RoutingCrashes(Pass(c, n, ch), n) <==> RoutingCrashes(c, n)
  {
    PassServes(c, n, ch);
    CurrentIsSame(c, n);
    if AtRest(c, n) {
      ServedIsRested(Current(c), n, ch);
      RestedAgain(Current(c), n);
    } else {
      CurrentFits(c, n, ch);
      ServedKeepsIngresses(Current(c), n, ch);
    }
  }

  lemma {:induction false} PassesKeepCrashing(c: Cluster, n: string, choices: seq<Choice>)
    requires Supported(c, n) && AllFit(c, n, choices)
    ensures RoutingCrashes(Passes(c, n, choices), n) <==> RoutingCrashes(c, n)
    decreases |choices|
  {
    if choices != [] {
      RestOrProgress(c, n, choices[0]);
      AllFitNext(c, n, choices);
      PassKeepsCrashing(c, n, choices[0]);
      PassesKeepCrashing(Pass(c, n, choices[0]), n, choices[1..]);
    }
  }

  /** After as many passes as the budget says, the next one returns if and only if the Site had no
      Ingress at the start or one with annotations; otherwise every pass crashes at the Ingress. */
  lemma ReturnsInTheEndIff(c: Cluster, n: string, choices: seq<Choice>, ch: Choice)
    requires Supported(c, n) && AllFit(c, n, choices) && (AtRest(c, n) || |choices| >= Budget(c, n)) && !ch.sqlFails
    ensures Returns(Passes(c, n, choices), n, ch) <==> !RoutingCrashes(c, n)
  {
    PassesConverge(c, n, choices);
    PassesKeepCrashing(c, n, choices);
    PassRests(Passes(c, n, choices), n, ch);
  }
}
