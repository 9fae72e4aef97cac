/** Any number of site workers, the environment controller and third parties acting on one cluster
    in any interleaving.  An event names who acts; a run is a sequence of events. */
module SiteMachine {
  import opened Options
  import opened Maps
  import opened SiteTypes
  import opened SharedObject
  import opened Cluster
  import opened SiteWorker

  /** `names` are the site names that may ever be used.  One worker at a time serves a name. */
  datatype State = State(cluster: Cluster, workers: map<string, Worker>, names: set<string>) {
    function WorkerOf(n: string): Worker {
      if n in workers then workers[n] else Idle
    }
  }

  datatype Event =
    | BeginPass(n: string)
    | Proceed(n: string, choice: Choice)
    | Abort(n: string)                        // an API call or connection fails, or the process stops
    | CreateSite(n: string, site: Site)
    | DeleteSite(n: string)
    | EditSite(n: string, site: Site)
    | DeletePassword(n: string)               // by a third party or the garbage collector
    | CreateDomains | CreateCredentials       // by the environment controller
    | DeleteDomains | DeleteCredentials
    | ObserveDomains(position: nat) | ObserveCredentials(position: nat)
    | SetProxyService(present: bool)
    | SetParent(parent: string, labels: Labels) | RemoveParent(parent: string)
    | Disturb(crons: seq<CronJob>, jobs: set<string>, ingresses: map<string, Ingress>)

  /** A worker relies on the password Secret between reading it and releasing it. */
  predicate ReliesOnPassword(w: Worker) {
    w.Busy? && (w.stage.DropUser? || w.stage.DropProxyUser? || w.stage.ReleasePassword?)
  }

  /** A user may create a Site with an unused Id or none. */
  predicate MayCreate(s: State, n: string, site: Site) {
    n in s.names && n !in s.cluster.sites && !site.deleting && site.Id() !in s.cluster.ids
  }

  /** A user may change anything of a Site but its Id, its cleanup finalizer and its deletion mark. */
  predicate MayEdit(s: State, n: string, site: Site) {
    && n in s.cluster.sites
    && var was := s.cluster.sites[n];
       site.Id() == was.Id() && site.deleting == was.deleting && site.Protected() == was.Protected()
  }

  /** The password Secret does not vanish while a worker relies on it without the cleanup finalizer. */
  predicate MayDeletePassword(s: State, n: string) {
    && n in s.cluster.passwords
    && (s.cluster.passwords[n].finalizers != [] || !ReliesOnPassword(s.WorkerOf(n)) || s.WorkerOf(n).site.Protected())
  }

  /** The state after an event; an event that is not possible changes nothing. */
  function After(s: State, e: Event): (t: State)
    requires s.cluster.Valid()
    ensures t.cluster.Valid() && t.names == s.names
  {
    var c := s.cluster;
    match e
    case BeginPass(n) =>
      if s.WorkerOf(n).Idle? && n in c.sites then s.(workers := s.workers[n := Begin(c, n)]) else s
    case Proceed(n, ch) => AfterProceed(s, n, ch)
    case Abort(n) => if n in s.workers then s.(workers := s.workers[n := Idle]) else s
    case CreateSite(n, site) => if MayCreate(s, n, site) then s.(cluster := Created(c, n, site)) else s
    case DeleteSite(n) => if n in c.sites then s.(cluster := c.PutSite(n, c.sites[n].(deleting := true))) else s
    case EditSite(n, site) => if MayEdit(s, n, site) then s.(cluster := c.PutSite(n, site)) else s
    case DeletePassword(n) =>
      if MayDeletePassword(s, n) then s.(cluster := c.PutPassword(n, c.passwords[n].(deleting := true))) else s
    case CreateDomains => s.(cluster := c.(domains := c.domains.Create(map[])))
    case CreateCredentials => s.(cluster := c.(credentials := c.credentials.Create(map[])))
    case DeleteDomains => s.(cluster := c.(domains := c.domains.Delete()))
    case DeleteCredentials => s.(cluster := c.(credentials := c.credentials.Delete()))
    case ObserveDomains(p) => s.(cluster := c.(domains := c.domains.Observe(p)))
    case ObserveCredentials(p) => s.(cluster := c.(credentials := c.credentials.Observe(p)))
    case SetProxyService(present) => s.(cluster := c.(proxyService := present))
    case SetParent(parent, labels) =>
      if SITE_ID in labels then s else s.(cluster := c.(parents := c.parents[parent := labels]))
    case RemoveParent(parent) => s.(cluster := c.(parents := c.parents - {parent}))
    case Disturb(crons, jobs, ingresses) => s.(cluster := c.(crons := crons, jobs := jobs, ingresses := ingresses))
  }

  function AfterProceed(s: State, n: string, ch: Choice): (t: State)
    requires s.cluster.Valid()
    ensures t.cluster.Valid() && t.names == s.names
  {
    match s.WorkerOf(n)
    case Idle => s
    case Busy(site, stage) =>
      var r := Advance(s.cluster, n, site, stage, ch);
      s.(cluster := r.cluster, workers := s.workers[n := r.worker])
  }

  function Created(c: Cluster, n: string, site: Site): Cluster {
    c.PutSite(n, site).(ids := if site.Id() == "" then c.ids else c.ids[site.Id() := n])
  }

  /** The state after a whole run. */
  function Run(s: State, events: seq<Event>): (t: State)
    requires s.cluster.Valid()
    ensures t.cluster.Valid() && t.names == s.names
    decreases |events|
  {
    if events == [] then s else Run(After(s, events[0]), events[1..])
  }

  /** Nothing exists yet; what else the database cluster holds has no site's name. */
  ghost predicate Initial(s: State) {
    && DistinctDatabases(s.names)
    && s.workers == map[]
    && var c := s.cluster;
       && c.sites == map[] && c.passwords == map[] && c.ids == map[] && c.orphaned == {}
       && c.domains == Shared([None], 0) && c.credentials == Shared([None], 0)
       && (forall p :: p in c.parents ==> SITE_ID !in c.parents[p])
       && (forall n :: n in s.names ==>
             DatabaseName(n) !in c.databases && DatabaseName(n) !in c.users && DatabaseName(n) !in c.proxyUsers)
  }

  ghost predicate DistinctDatabases(names: set<string>) {
    forall m, n :: m in names && n in names && m != n ==> DatabaseName(m) != DatabaseName(n)
  }

  // ---- The invariant ----

  /** A site's entries, database, database user and held password exist only while the Site is
      protected by its finalizer. */
  ghost predicate GuardsHold(c: Cluster, n: string)
    requires c.Valid()
  {
    && (DatabaseName(n) in c.databases || DatabaseName(n) in c.users || c.PasswordHeld(n) ==> c.SiteProtected(n))
    && (forall id :: id in c.ids && c.ids[id] == n && (id in c.LiveDomains() || id in c.LiveCredentials()) ==>
          c.SiteProtected(n) && c.sites[n].Id() == id)
  }

  /** What is gone by the time a worker reaches a stage of tearing down. */
  ghost predicate TornDown(c: Cluster, n: string, site: Site, stage: Stage)
    requires c.Valid()
  {
    && site.deleting
    && (!site.Protected() ==> !c.PasswordHeld(n))
    && (Rank(stage) >= 4 ==> site.Id() !in c.LiveCredentials())
    && (Rank(stage) >= 6 ==> site.Id() !in c.LiveDomains())
    && (Rank(stage) >= 7 ==> DatabaseName(n) !in c.databases)
    && (7 <= Rank(stage) <= 9 ==> n in c.passwords || site.Protected())
    && (Rank(stage) >= 8 ==> DatabaseName(n) !in c.users)
    && (Rank(stage) >= 10 ==> !c.PasswordHeld(n) && site.Protected())
  }

  /** A worker that provisions does so for a Site that is protected and was not being deleted. */
  ghost predicate ProvisionsProtected(c: Cluster, n: string, site: Site) {
    c.SiteProtected(n) && c.sites[n].Id() == site.Id() && !site.deleting && site.Protected()
  }

  ghost predicate SnapshotsHold(c: Cluster, stage: Stage) {
    && (stage.ForgetCredentialsWrite? || stage.PublishCredentialsWrite? ==> c.credentials.Holds(stage.heldDb))
    && (stage.ForgetDomainsWrite? || stage.PublishDomainsWrite? ==> c.domains.Holds(stage.heldDomains))
  }

  /** The copy of the Site is one that was stored; with the stored version it is the stored Site. */
  ghost predicate CopyHolds(c: Cluster, n: string, site: Site, stage: Stage) {
    && site.version <= c.clock
    && (n in c.sites && c.sites[n].version == site.version ==> c.sites[n] == site)
    && (if stage == AssignId then site.Id() == "" else site.Id() in c.ids && c.ids[site.Id()] == n)
  }

  ghost predicate WorkerHolds(c: Cluster, n: string, w: Worker)
    requires c.Valid()
  {
    w.Busy? ==>
      && CopyHolds(c, n, w.site, w.stage)
      && SnapshotsHold(c, w.stage)
      && (TearsDown(w.stage) ==> TornDown(c, n, w.site, w.stage))
      && (w.stage == Protect ==> !w.site.deleting && (w.site.Protected() ==> ProvisionsProtected(c, n, w.site)))
      && (Provisions(w.stage) ==> ProvisionsProtected(c, n, w.site))
  }

  ghost predicate SiteHolds(c: Cluster, n: string, w: Worker)
    requires c.Valid()
  {
    GuardsHold(c, n) && WorkerHolds(c, n, w)
  }

  /** What does not belong to a single site: Ids are given out once, every shared entry belongs to an
      Id, and the cache shows an object that has entries. */
  ghost predicate Global(c: Cluster, names: set<string>) {
    && c.Valid()
    && "" !in c.ids
    && (forall id :: id in c.ids ==> c.ids[id] in names)
    && (forall n :: n in c.passwords ==> n in names)
    && (forall n :: n in c.sites ==>
          n in names && c.sites[n].version <= c.clock
          && (c.sites[n].Id() != "" ==> c.sites[n].Id() in c.ids && c.ids[c.sites[n].Id()] == n))
    && (forall p :: p in c.parents ==> SITE_ID !in c.parents[p])
    && SharedGlobal(c)
  }

  ghost predicate SharedGlobal(c: Cluster)
    requires c.Valid()
  {
    && c.LiveDomains().Keys <= c.ids.Keys && c.LiveCredentials().Keys <= c.ids.Keys
    && (c.LiveDomains() != map[] ==> c.domains.ExistsSinceCached())
    && (c.LiveCredentials() != map[] ==> c.credentials.ExistsSinceCached())
  }

  ghost predicate Inv(s: State) {
    && DistinctDatabases(s.names)
    && s.workers.Keys <= s.names
    && Global(s.cluster, s.names)
    && (forall n :: n in s.names ==> SiteHolds(s.cluster, n, s.WorkerOf(n)))
  }

  // ---- What one site sees of another site's steps ----

  /** Nothing that belongs to site `m` differs, and time has moved forward. */
  ghost predicate Untouched(c: Cluster, d: Cluster, m: string)
    requires c.Valid() && d.Valid()
  {
    && SameAt(c.sites, d.sites, m) && SameAt(c.passwords, d.passwords, m)
    && (DatabaseName(m) in c.databases <==> DatabaseName(m) in d.databases)
    && SameAt(c.users, d.users, DatabaseName(m)) && SameAt(c.proxyUsers, d.proxyUsers, DatabaseName(m))
    && (m in c.orphaned <==> m in d.orphaned)
    && (forall id :: id in d.ids && d.ids[id] == m ==>
          SameAt(c.LiveDomains(), d.LiveDomains(), id) && SameAt(c.LiveCredentials(), d.LiveCredentials(), id))
    && Later(c, d)
  }

  /** Versions, Ids, logs and caches only grow. */
  ghost predicate Later(c: Cluster, d: Cluster) {
    && c.clock <= d.clock
    && (forall id :: id in c.ids ==> id in d.ids && d.ids[id] == c.ids[id])
    && c.domains.log <= d.domains.log && c.domains.cache <= d.domains.cache
    && c.credentials.log <= d.credentials.log && c.credentials.cache <= d.credentials.cache
  }

  /** As much of that as the invariant of site `m` needs: shared entries may also go. */
  ghost predicate Kept(c: Cluster, d: Cluster, m: string)
    requires c.Valid() && d.Valid()
  {
    && SameAt(c.sites, d.sites, m) && SameAt(c.passwords, d.passwords, m)
    && (DatabaseName(m) in c.databases <==> DatabaseName(m) in d.databases)
    && (DatabaseName(m) in c.users <==> DatabaseName(m) in d.users)
    && (forall id :: id in d.ids && d.ids[id] == m ==>
          && (id in d.LiveDomains() ==> id in c.LiveDomains())
          && (id in d.LiveCredentials() ==> id in c.LiveCredentials()))
    && Later(c, d)
  }

  lemma UntouchedIsKept(c: Cluster, d: Cluster, m: string)
    requires c.Valid() && d.Valid() && Untouched(c, d, m)
    ensures Kept(c, d, m)
  {
  }

  /** The invariant of a site survives steps that keep what belongs to it. */
  lemma KeptSiteHolds(c: Cluster, d: Cluster, m: string, w: Worker, names: set<string>)
    requires Global(c, names) && Global(d, names) && Kept(c, d, m) && SiteHolds(c, m, w)
    ensures SiteHolds(d, m, w)
  {
  }
}
