/** When the deletion of a Site is stuck, what alone can free it, and what a vanishing password
    Secret does to a Site without the cleanup finalizer. */
module SiteStuck {
  import opened SiteTypes
  import opened Finalizers
  import opened Cluster
  import opened SiteWorker
  import opened SiteMachine
  import opened SiteSafety
  import opened SitePass
  import opened SiteDeletion

  /** The password Secret has lost its finalizer or never had one, the Site still has its own. */
  predicate Stranded(c: Cluster, n: string) {
    n in c.sites && c.sites[n].deleting && c.sites[n].Protected() && !c.PasswordHeld(n) && c.sites[n].Id() != ""
  }

  /** A stage of tearing down before the release of the Site. */
  predicate BeforeRelease(w: Worker) {
    w.Busy? ==> 2 <= Rank(w.stage) <= 9
  }

  /** No worker is about to release the Site. */
  predicate Stuck(s: State, n: string) {
    && Stranded(s.cluster, n) && BeforeRelease(s.WorkerOf(n))
    && (ReliesOnPassword(s.WorkerOf(n)) ==> n in s.cluster.passwords)
  }

  /** The password Secret, held by nothing, goes between its last read and its release. */
  predicate Vanishes(s: State, e: Event, n: string) {
    && e.DeletePassword? && e.n == n && ReliesOnPassword(s.WorkerOf(n))
    && n in s.cluster.passwords && s.cluster.passwords[n].finalizers == [] && s.WorkerOf(n).site.Protected()
  }

  // ---- One event ----

  ghost predicate OutcomeStuck(n: string, r: Step) {
    Stranded(r.cluster, n) && BeforeRelease(r.worker) && (ReliesOnPassword(r.worker) ==> n in r.cluster.passwords)
  }

  /** The stages up to the databases. */
  lemma CredentialsStaysStuck(c: Cluster, n: string, site: Site, stage: Stage, ch: Choice)
    requires c.Valid() && Stranded(c, n) && (stage.ForgetCredentials? || stage.ForgetCredentialsWrite?)
    ensures OutcomeStuck(n, TearDown(c, n, site, stage, ch))
  {
  }

  lemma DomainsStaysStuck(c: Cluster, n: string, site: Site, stage: Stage, ch: Choice)
    requires c.Valid() && Stranded(c, n) && (stage.ForgetDomains? || stage.ForgetDomainsWrite?)
    ensures OutcomeStuck(n, TearDown(c, n, site, stage, ch))
  {
  }

  lemma DropStaysStuck(c: Cluster, n: string, site: Site, stage: Stage, ch: Choice)
    requires c.Valid() && Stranded(c, n) && 6 <= Rank(stage) <= 8 && (stage != DropDatabase ==> n in c.passwords)
    ensures OutcomeStuck(n, TearDown(c, n, site, stage, ch))
  {
  }

  lemma ReleaseStaysStuck(c: Cluster, n: string, site: Site, ch: Choice)
    requires c.Valid() && Stranded(c, n) && n in c.passwords
    ensures OutcomeStuck(n, DoReleasePassword(c, n, site))
  {
  }

  lemma OwnStepStaysStuck(c: Cluster, n: string, site: Site, stage: Stage, ch: Choice)
    requires c.Valid() && OutcomeStuck(n, Step(c, Busy(site, stage)))
    ensures OutcomeStuck(n, Advance(c, n, site, stage, ch))
  {
    if Rank(stage) <= 3 {
      CredentialsStaysStuck(c, n, site, stage, ch);
    } else if Rank(stage) <= 5 {
      DomainsStaysStuck(c, n, site, stage, ch);
    } else if Rank(stage) <= 8 {
      DropStaysStuck(c, n, site, stage, ch);
    } else {
      ReleaseStaysStuck(c, n, site, ch);
    }
  }

  lemma ProceedStaysStuck(s: State, m: string, ch: Choice, n: string)
    requires Inv(s) && Stuck(s, n)
    ensures Stuck(After(s, Proceed(m, ch)), n)
  {
    if m != n {
      ProceedTouchesOwn(s, m, ch, n);
    } else if s.WorkerOf(n).Busy? {
      OwnStepStaysStuck(s.cluster, n, s.WorkerOf(n).site, s.WorkerOf(n).stage, ch);
    }
  }

  lemma BeginStaysStuck(s: State, m: string, n: string)
    requires Stuck(s, n) && s.cluster.Valid()
    ensures Stuck(After(s, BeginPass(m)), n) && Stuck(After(s, Abort(m)), n)
  {
  }

  /** Storing a Site whose finalizer and mark are as before, or one that is new. */
  lemma PutSiteStaysStranded(c: Cluster, m: string, site: Site, n: string)
    requires Stranded(c, n)
    requires m == n ==> site.deleting && site.Protected() && site.Id() == c.sites[n].Id()
    ensures Stranded(c.PutSite(m, site), n)
  {
  }

  lemma StoreStaysStuck(s: State, e: Event, n: string)
    requires Inv(s) && Stuck(s, n) && (e.DeleteSite? || e.EditSite?)
    ensures Stuck(After(s, e), n)
  {
    if e.n in s.cluster.sites {
      var site := if e.EditSite? then e.site else s.cluster.sites[e.n].(deleting := true);
      if e.DeleteSite? || MayEdit(s, e.n, e.site) {
        PutSiteStaysStranded(s.cluster, e.n, site, n);
      }
    }
  }

  lemma CreateEventIs(s: State, m: string, site: Site)
    requires s.cluster.Valid()
    ensures After(s, CreateSite(m, site))
            == if MayCreate(s, m, site) then s.(cluster := Created(s.cluster, m, site)) else s
  {
  }

  lemma CreatedStaysStranded(c: Cluster, m: string, site: Site, n: string)
    requires Stranded(c, n) && m != n
    ensures Stranded(Created(c, m, site), n) && Created(c, m, site).passwords == c.passwords
  {
  }

  lemma CreateStaysStuck(s: State, m: string, site: Site, n: string)
    requires Inv(s) && Stuck(s, n)
    ensures Stuck(After(s, CreateSite(m, site)), n)
  {
    CreateEventIs(s, m, site);
    if MayCreate(s, m, site) {
      CreatedStaysStranded(s.cluster, m, site, n);
      assert s.(cluster := Created(s.cluster, m, site)).WorkerOf(n) == s.WorkerOf(n);
    }
  }

  lemma PasswordKeepsStranded(c: Cluster, m: string, n: string)
    requires c.Valid() && Stranded(c, n) && m in c.passwords
    ensures var d := c.PutPassword(m, c.passwords[m].(deleting := true));
            Stranded(d, n) && (n in d.passwords <==> n in c.passwords && !(m == n && c.passwords[n].finalizers == []))
  {
  }

  lemma PasswordMarkStuckIff(s: State, m: string, n: string)
    requires Inv(s) && Stuck(s, n) && MayDeletePassword(s, m)
    ensures Stuck(s.(cluster := s.cluster.PutPassword(m, s.cluster.passwords[m].(deleting := true))), n)
            <==> !Vanishes(s, DeletePassword(m), n)
  {
    var t := s.(cluster := s.cluster.PutPassword(m, s.cluster.passwords[m].(deleting := true)));
    PasswordKeepsStranded(s.cluster, m, n);
    assert t.WorkerOf(n) == s.WorkerOf(n);
  }

  lemma PasswordEventIs(s: State, m: string)
    requires s.cluster.Valid()
    ensures After(s, DeletePassword(m))
            == if MayDeletePassword(s, m)
               then s.(cluster := s.cluster.PutPassword(m, s.cluster.passwords[m].(deleting := true))) else s
  {
  }

  lemma PasswordEventStuckIff(s: State, m: string, n: string)
    requires Inv(s) && Stuck(s, n)
    ensures Stuck(After(s, DeletePassword(m)), n) <==> !Vanishes(s, DeletePassword(m), n)
  {
    PasswordEventIs(s, m);
    if MayDeletePassword(s, m) {
      PasswordMarkStuckIff(s, m, n);
    }
  }

  lemma SameSiteStaysStuck(s: State, t: State, n: string)
    requires Stuck(s, n) && t.cluster.sites == s.cluster.sites && t.cluster.passwords == s.cluster.passwords
             && t.workers == s.workers
    ensures Stuck(t, n)
  {
    assert t.WorkerOf(n) == s.WorkerOf(n);
  }

  lemma SharedStaysStuck(s: State, e: Event, n: string)
    requires Stuck(s, n) && s.cluster.Valid() && OfSharedObject(e)
    ensures Stuck(After(s, e), n)
  {
    SameSiteStaysStuck(s, After(s, e), n);
  }

  lemma SurroundingsStayStuck(s: State, e: Event, n: string)
    requires Stuck(s, n) && s.cluster.Valid() && OfSurroundings(e)
    ensures Stuck(After(s, e), n)
  {
    SameSiteStaysStuck(s, After(s, e), n);
  }

  /** One event ends the state of being stuck, and no other. */
  lemma EventStuckIff(s: State, e: Event, n: string)
    requires Inv(s) && Stuck(s, n)
    ensures Stuck(After(s, e), n) <==> !Vanishes(s, e, n)
  {
    if e.Proceed? {
      ProceedStaysStuck(s, e.n, e.choice, n);
    } else if e.BeginPass? || e.Abort? {
      BeginStaysStuck(s, e.n, n);
    } else if e.DeleteSite? || e.EditSite? {
      StoreStaysStuck(s, e, n);
    } else if e.CreateSite? {
      assert e == CreateSite(e.n, e.site);
      CreateStaysStuck(s, e.n, e.site, n);
    } else if e.DeletePassword? {
      assert e == DeletePassword(e.n);
      PasswordEventStuckIff(s, e.n, n);
    } else if OfSharedObject(e) {
      SharedStaysStuck(s, e, n);
    } else {
      SurroundingsStayStuck(s, e, n);
    }
  }

  // ---- Whole runs ----

  predicate NeverVanishes(s: State, events: seq<Event>, n: string)
    requires s.cluster.Valid()
    decreases |events|
  {
    events == [] || (!Vanishes(s, events[0], n) && NeverVanishes(After(s, events[0]), events[1..], n))
  }

  /** However long the operator retries: as long as the Secret does not vanish under a worker that
      has read it, the Site is not released. */
  lemma {:induction false} StuckForever(s: State, events: seq<Event>, n: string)
    requires Inv(s) && Stuck(s, n) && NeverVanishes(s, events, n)
    ensures Run(s, events).cluster.SiteProtected(n) && Stuck(Run(s, events), n)
    decreases |events|
  {
    if events != [] {
      EventKeepsInv(s, events[0]);
      EventStuckIff(s, events[0], n);
      StuckForever(After(s, events[0]), events[1..], n);
    }
  }

  /** The rest of a pass over a Site whose Secret is gone. */
  lemma DriveWithoutSecret(c: Cluster, n: string, stage: Stage, ch: Choice)
    requires c.Valid() && n in c.sites && c.sites[n].deleting && c.sites[n].Protected() && n !in c.passwords
    requires stage.DropUser? || stage.DropProxyUser? || stage.ReleasePassword?
    ensures !Drive(c, n, c.sites[n], stage, ch).cluster.SiteProtected(n)
    decreases 27 - Rank(stage)
  {
    var site := c.sites[n];
    if stage.DropUser? {
      DropUserStage(c, n, site, ch);
      var u := c.(users := c.users - {DatabaseName(n)});
      DriveOn(c, n, site, stage, ch, u, DropProxyUser);
      DriveWithoutSecret(u, n, DropProxyUser, ch);
    } else if stage.DropProxyUser? {
      DropProxyUserStage(c, n, site, ch);
      DriveOn(c, n, site, stage, ch, RowDropped(c, n, ch), ReleasePassword);
      DriveWithoutSecret(RowDropped(c, n, ch), n, ReleasePassword, ch);
    } else {
      ReleasePasswordStage(c, n, site, ch);
      DriveOn(c, n, site, stage, ch, PasswordFreed(c, n), ReleaseSite);
      DriveReleasesSite(PasswordFreed(c, n), n, ch);
      SiteReleasedOutcome(PasswordFreed(c, n), n);
    }
  }

  lemma VanishStep(s: State, n: string)
    requires s.cluster.Valid() && Vanishes(s, DeletePassword(n), n)
    ensures After(s, DeletePassword(n)) == s.(cluster := s.cluster.RemovePassword(n))
  {
  }

  lemma CopyIsStored(s: State, n: string)
    requires Inv(s) && s.WorkerOf(n).Busy? && n in s.cluster.sites
             && s.cluster.sites[n].version == s.WorkerOf(n).site.version
    ensures s.cluster.sites[n] == s.WorkerOf(n).site
  {
    BusyWorkerHolds(s, n);
    assert CopyHolds(s.cluster, n, s.WorkerOf(n).site, s.WorkerOf(n).stage);
  }

  lemma RestReleases(t: State, n: string, stage: Stage, ch: Choice)
    requires t.cluster.Valid() && n in t.cluster.sites && t.WorkerOf(n) == Busy(t.cluster.sites[n], stage)
    requires t.cluster.sites[n].deleting && t.cluster.sites[n].Protected() && n !in t.cluster.passwords
    requires stage.DropUser? || stage.DropProxyUser? || stage.ReleasePassword?
    ensures !Run(t, Steps(t.cluster, n, t.cluster.sites[n], stage, ch)).cluster.SiteProtected(n)
  {
    DriveWithoutSecret(t.cluster, n, stage, ch);
    DriveIsRun(t, n, t.cluster.sites[n], stage, ch);
  }

  ghost predicate ReleasedBy(s: State, n: string, events: seq<Event>)
    requires s.cluster.Valid()
  {
    !Run(s, events).cluster.SiteProtected(n)
  }

  /** The event that ends it lets the same pass release the Site, if its copy is the stored one. */
  lemma VanishedSecretReleases(s: State, n: string, ch: Choice)
    requires Inv(s) && Stuck(s, n) && Vanishes(s, DeletePassword(n), n)
    requires s.cluster.sites[n].version == s.WorkerOf(n).site.version
    ensures exists events :: ReleasedBy(After(s, DeletePassword(n)), n, events)
  {
    var t := s.(cluster := s.cluster.RemovePassword(n));
    VanishStep(s, n);
    CopyIsStored(s, n);
    var stage := s.WorkerOf(n).stage;
    RestReleases(t, n, stage, ch);
    assert ReleasedBy(t, n, Steps(t.cluster, n, t.cluster.sites[n], stage, ch));
  }

  // ---- How a Site gets stuck ----

  lemma ReleasingIsStranded(c: Cluster, n: string, site: Site)
    requires c.Valid() && WorkerHolds(c, n, Busy(site, ReleaseSite))
    requires n in c.sites && c.sites[n].version == site.version && "" !in c.ids
    ensures Stranded(c, n)
  {
    assert TornDown(c, n, site, ReleaseSite);
  }

  /** One failed call between the two releases is enough. */
  lemma FailureBetweenReleasesStrands(s: State, n: string)
    requires Inv(s) && s.WorkerOf(n).Busy? && s.WorkerOf(n).stage == ReleaseSite
    requires n in s.cluster.sites && s.cluster.sites[n].version == s.WorkerOf(n).site.version
    ensures Stuck(After(s, Abort(n)), n)
  {
    BusyWorkerHolds(s, n);
    ReleasingIsStranded(s.cluster, n, s.WorkerOf(n).site);
  }

  /** The Site as it is after creation, a pass that adds the finalizer, and deletion. */
  lemma ProtectStep(s: State, n: string, ch: Choice)
    requires s.cluster.Valid() && n in s.cluster.sites && s.WorkerOf(n) == Busy(s.cluster.sites[n], Protect)
    requires !s.cluster.sites[n].Protected() && !s.cluster.sites[n].deleting
    ensures var t := After(s, Proceed(n, ch));
            && t.WorkerOf(n).Idle? && n in t.cluster.sites && t.cluster.sites[n].Protected()
            && t.cluster.passwords == s.cluster.passwords
            && t.cluster.sites[n].Id() == s.cluster.sites[n].Id()
  {
    var site := s.cluster.sites[n];
    var next := site.(finalizers := With(site.finalizers, SITE_FINALIZER));
    assert Advance(s.cluster, n, site, Protect, ch) == EndWith(s.cluster, n, next);
    PutSiteShape(s.cluster, n, next);
  }

  lemma CreateStep(s: State, n: string, site: Site)
    requires MayCreate(s, n, site) && s.cluster.Valid()
    ensures var t := After(s, CreateSite(n, site));
            && n in t.cluster.sites && t.workers == s.workers && t.cluster.passwords == s.cluster.passwords
            && t.cluster.sites[n] == site.(version := t.cluster.sites[n].version)
  {
    PutSiteShape(s.cluster, n, site);
  }

  lemma BeginStep(s: State, n: string)
    requires s.cluster.Valid() && s.WorkerOf(n).Idle? && n in s.cluster.sites
    ensures var t := After(s, BeginPass(n)); t.cluster == s.cluster && t.WorkerOf(n) == Begin(s.cluster, n)
  {
  }

  lemma DeleteStep(s: State, n: string)
    requires s.cluster.Valid() && n in s.cluster.sites && s.cluster.sites[n].Protected() && s.WorkerOf(n).Idle?
    requires n !in s.cluster.passwords && s.cluster.sites[n].Id() != ""
    ensures Stuck(After(s, DeleteSite(n)), n)
  {
    PutSiteShape(s.cluster, n, s.cluster.sites[n].(deleting := true));
  }

  lemma {:induction false} RunOfFour(s: State, a: Event, b: Event, e: Event, f: Event)
    requires s.cluster.Valid()
    ensures Run(s, [a, b, e, f]) == After(After(After(After(s, a), b), e), f)
  {
    assert [a, b, e, f][1..] == [b, e, f];
    RunOfThree(After(s, a), b, e, f);
  }

  /** From the start: a Site that is deleted before its password Secret was made is stuck. */
  lemma StuckIsReachable(s: State, n: string, site: Site, ch: Choice)
    requires Initial(s) && n in s.names && site.Id() != "" && !site.deleting && !site.Protected()
    ensures Stuck(Run(s, [CreateSite(n, site), BeginPass(n), Proceed(n, ch), DeleteSite(n)]), n)
  {
    RunOfFour(s, CreateSite(n, site), BeginPass(n), Proceed(n, ch), DeleteSite(n));
    CreateStep(s, n, site);
    var t := After(s, CreateSite(n, site));
    BeginStep(t, n);
    var u := After(t, BeginPass(n));
    ProtectStep(u, n, ch);
    DeleteStep(After(u, Proceed(n, ch)), n);
  }

  // ---- Without the cleanup finalizer ----

  /** Two steps after the password Secret has vanished. */
  function AfterVanishing(s: State, n: string, ch: Choice): State
    requires s.cluster.Valid()
  {
    AfterProceed(AfterProceed(s.(cluster := s.cluster.RemovePassword(n)), n, ch), n, ch)
  }

  lemma ReleasesWithoutSecret(c: Cluster, n: string, site: Site, ch: Choice)
    requires c.Valid() && n !in c.passwords
    ensures Advance(c, n, site, ReleasePassword, ch) == Next(c, site, ReleaseSite)
    ensures !site.Protected() ==> Advance(c, n, site, ReleaseSite, ch) == Next(c, site, Link)
    ensures site.Protected() ==> Advance(c, n, site, ReleaseSite, ch).worker.Idle?
  {
  }

  lemma ProceedsTo(s: State, n: string, ch: Choice, site: Site, stage: Stage, r: Step)
    requires s.cluster.Valid() && s.WorkerOf(n) == Busy(site, stage) && Advance(s.cluster, n, site, stage, ch) == r
    ensures AfterProceed(s, n, ch).cluster == r.cluster && AfterProceed(s, n, ch).WorkerOf(n) == r.worker
  {
  }

  lemma TwoStepsOn(t: State, n: string, ch: Choice, site: Site)
    requires t.cluster.Valid() && t.WorkerOf(n) == Busy(site, ReleasePassword) && n !in t.cluster.passwords
    ensures var w := AfterProceed(AfterProceed(t, n, ch), n, ch).WorkerOf(n);
            if site.Protected() then w.Idle? else w == Busy(site, Link)
  {
    var c := t.cluster;
    ReleasesWithoutSecret(c, n, site, ch);
    ProceedsTo(t, n, ch, site, ReleasePassword, Next(c, site, ReleaseSite));
    ProceedsTo(AfterProceed(t, n, ch), n, ch, site, ReleaseSite, Advance(c, n, site, ReleaseSite, ch));
  }

  lemma TearingDownIsDeleting(s: State, n: string)
    requires Inv(s) && s.WorkerOf(n).Busy? && TearsDown(s.WorkerOf(n).stage)
    ensures s.WorkerOf(n).site.deleting
  {
    BusyWorkerHolds(s, n);
    assert TornDown(s.cluster, n, s.WorkerOf(n).site, s.WorkerOf(n).stage);
  }

  /** A worker that serves a Site marked for deletion stands at the link. */
  predicate FellThrough(u: State, n: string) {
    u.WorkerOf(n).Busy? && u.WorkerOf(n).stage == Link && u.WorkerOf(n).site.deleting
    && !ServesProtected(u.cluster, n, u.WorkerOf(n))
  }

  lemma FellThroughIff(u: State, n: string, site: Site)
    requires site.deleting && if site.Protected() then u.WorkerOf(n).Idle? else u.WorkerOf(n) == Busy(site, Link)
    ensures FellThrough(u, n) <==> !site.Protected()
  {
  }

  /** In a run: if the Secret vanishes under a worker that is about to release it, the pass goes on to
      provision a Site that is being deleted exactly if that Site lacks the cleanup finalizer.  This is
      the one case that the machine leaves out. */
  lemma VanishedSecretFallsThroughIff(s: State, n: string, ch: Choice)
    requires Inv(s) && s.WorkerOf(n).Busy? && s.WorkerOf(n).stage == ReleasePassword && n in s.cluster.passwords
    ensures FellThrough(AfterVanishing(s, n, ch), n) <==> !s.WorkerOf(n).site.Protected()
  {
    var t := s.(cluster := s.cluster.RemovePassword(n));
    assert t.WorkerOf(n) == s.WorkerOf(n);
    TearingDownIsDeleting(s, n);
    TwoStepsOn(t, n, ch, s.WorkerOf(n).site);
    FellThroughIff(AfterVanishing(s, n, ch), n, s.WorkerOf(n).site);
  }
}
