/** A new Site that takes over the password Secret which an earlier Site of its name has left: a run
    from the start at whose end a database user has a password that is recorded nowhere. */
module SiteInheritance {
  import opened Options
  import opened SiteTypes
  import opened SharedObject
  import opened Finalizers
  import opened LabelSync
  import opened Cluster
  import opened SiteWorker
  import opened SiteMachine
  import opened SiteSafety
  import opened SitePass
  import opened SiteDeletion
  import opened SiteConvergence
  import opened SiteProgress
  import opened Credentials

  const ENVIRONMENT := "production"

  /** A Site as a user may create it: with an Id, the cleanup finalizer and its owner. */
  function NewSite(id: string): Site {
    Site(0, map[SITE_ID := id], [SITE_FINALIZER], false, ENVIRONMENT, map[],
         SiteSpec(["example.com"], ENVIRONMENT, [], false, "", ""))
  }

  /** The environment with its shared objects, still empty, and the ProxySQL service. */
  predicate Furnished(c: Cluster) {
    && c.Valid() && ENVIRONMENT in c.parents && c.parents[ENVIRONMENT] == map[] && c.proxyService
    && c.domains.Live() == Some(map[]) && c.credentials.Live() == Some(map[])
  }

  /** A Site made by `NewSite` that nothing has been written to since. */
  predicate Stands(c: Cluster, n: string, id: string) {
    n in c.sites && c.sites[n] == NewSite(id).(version := c.sites[n].version)
  }

  predicate Lingers(c: Cluster, n: string, password: string) {
    n in c.passwords && c.passwords[n] == PasswordSecret([], false, password)
  }

  // ---- Runs, one piece after the other ----

  lemma RunOn(s: State, events: seq<Event>, e: Event)
    requires s.cluster.Valid()
    ensures Run(s, events + [e]) == After(Run(s, events), e)
  {
    RunConcat(s, events, [e]);
    assert [e][1..] == [];
    assert Run(Run(s, events), [e]) == After(Run(s, events), e);
  }

  lemma PassOn(s: State, events: seq<Event>, n: string, ch: Choice) returns (more: seq<Event>)
    requires s.cluster.Valid() && Run(s, events).WorkerOf(n).Idle?
    ensures Run(s, more).cluster == Pass(Run(s, events).cluster, n, ch) && Run(s, more).WorkerOf(n).Idle?
  {
    var t := Run(s, events);
    PassIsRun(t, n, ch);
    more := events + (Opening(t.cluster, n) + Closing(t.cluster, n, ch));
    RunConcat(s, events, Opening(t.cluster, n) + Closing(t.cluster, n, ch));
  }

  // ---- The stations ----

  lemma ParentEventIs(s: State, labels: Labels)
    requires s.cluster.Valid() && SITE_ID !in labels
    ensures After(s, SetParent(ENVIRONMENT, labels))
            == s.(cluster := s.cluster.(parents := s.cluster.parents[ENVIRONMENT := labels]))
  {
  }

  lemma DomainsEventIs(s: State)
    requires s.cluster.Valid()
    ensures After(s, CreateDomains) == s.(cluster := s.cluster.(domains := s.cluster.domains.Create(map[])))
  {
  }

  lemma CredentialsEventIs(s: State)
    requires s.cluster.Valid()
    ensures After(s, CreateCredentials) == s.(cluster := s.cluster.(credentials := s.cluster.credentials.Create(map[])))
  {
  }

  lemma ServiceEventIs(s: State)
    requires s.cluster.Valid()
    ensures After(s, SetProxyService(true)) == s.(cluster := s.cluster.(proxyService := true))
  {
  }

  lemma Furnish(s: State) returns (events: seq<Event>)
    requires Initial(s)
    ensures var t := Run(s, events);
            && Furnished(t.cluster) && t.workers == map[]
            && t.cluster.sites == map[] && t.cluster.passwords == map[] && t.cluster.ids == map[]
  {
    var none: Labels := map[];
    var w, x, y, z := SetParent(ENVIRONMENT, none), CreateDomains, CreateCredentials, SetProxyService(true);
    var t := After(After(After(s, w), x), y);
    ParentEventIs(s, none);
    DomainsEventIs(After(s, w));
    CredentialsEventIs(After(After(s, w), x));
    ServiceEventIs(t);
    events := [w, x, y] + [z];
    RunOfThree(s, w, x, y);
    RunOn(s, [w, x, y], z);
    FurnishedBy(s.cluster, After(t, z).cluster);
  }

  lemma FurnishedBy(c: Cluster, d: Cluster)
    requires c.Valid() && c.domains == Shared([None], 0) && c.credentials == Shared([None], 0)
    requires d == c.(parents := c.parents[ENVIRONMENT := map[]], domains := c.domains.Create(map[]),
                     credentials := c.credentials.Create(map[]), proxyService := true)
    ensures Furnished(d)
  {
  }

  lemma Create(s: State, n: string, id: string)
    requires s.cluster.Valid() && n in s.names && n !in s.cluster.sites && id !in s.cluster.ids && id != ""
    ensures var t := After(s, CreateSite(n, NewSite(id)));
            && Stands(t.cluster, n, id) && t.workers == s.workers
            && t.cluster == s.cluster.(sites := t.cluster.sites, clock := t.cluster.clock,
                                       ids := s.cluster.ids[id := n])
  {
    PutSiteShape(s.cluster, n, NewSite(id));
  }

  lemma StandsServed(c: Cluster, n: string, id: string)
    requires Furnished(c) && Stands(c, n, id) && id != ""
    ensures Supported(c, n) && FirstUnmet(c, n) == if n in c.passwords then 4 else 3
  {
    var site := c.sites[n];
    assert SyncedLabels(map[], site.labels, LABEL_PREFIX) == site.labels;
    assert LinkedTo(c, site);
  }

  /** The first pass makes the password Secret. */
  lemma PassMakesPassword(c: Cluster, n: string, id: string, ch: Choice)
    requires Furnished(c) && Stands(c, n, id) && id != "" && n !in c.passwords && !ch.sqlFails
    ensures var d := Pass(c, n, ch);
            && Furnished(d) && d.sites == c.sites && d.ids == c.ids
            && n in d.passwords && d.passwords[n] == PasswordSecret([PASSWORD_FINALIZER], false, ch.password)
  {
    StandsServed(c, n, id);
    StandsServed(Current(c), n, id);
    PassServes(c, n, ch);
  }

  lemma Delete(s: State, n: string, id: string)
    requires s.cluster.Valid() && Stands(s.cluster, n, id)
    ensures var t := After(s, DeleteSite(n));
            && t.workers == s.workers && t.cluster == s.cluster.(sites := t.cluster.sites, clock := t.cluster.clock)
            && n in t.cluster.sites
            && t.cluster.sites[n] == NewSite(id).(version := t.cluster.sites[n].version, deleting := true)
  {
    PutSiteShape(s.cluster, n, s.cluster.sites[n].(deleting := true));
  }

  lemma SingleReleased(f: string)
    ensures Without([f], f) == []
  {
    WithoutMembers([f], f);
    assert Without([f], f) != [] ==> Without([f], f)[0] in Without([f], f);
  }

  /** The pass that deletes the Site leaves its Secret, without the finalizer, to the garbage collector. */
  lemma PassLeavesSecret(c: Cluster, n: string, id: string, password: string, ch: Choice)
    requires Furnished(c) && id != "" && n in c.sites
             && c.sites[n] == NewSite(id).(version := c.sites[n].version, deleting := true)
    requires n in c.passwords && c.passwords[n] == PasswordSecret([PASSWORD_FINALIZER], false, password)
    ensures var d := Pass(c, n, ch); Furnished(d) && n !in d.sites && Lingers(d, n, password) && d.ids == c.ids
  {
    PassDeletes(c, n, ch);
    DeletedOutcome(c, n, ch);
    SingleReleased(SITE_FINALIZER);
    SingleReleased(PASSWORD_FINALIZER);
    var none: Domains := map[];
    assert none - {id} == none;
    var e := Dropped(Forgotten(Current(c), id), n, ch);
    assert e.passwords == c.passwords && e.sites == c.sites && e.ids == c.ids;
    assert Deleted(c, n, ch) == SiteReleased(PasswordFreed(e, n), n);
  }

  lemma StartedDomains(c: Cluster, n: string, ch: Choice)
    requires Supported(c, n) && FirstUnmet(c, n) == 4
    ensures var d := Started(c, n, ch); d == c.(domains := d.domains)
  {
  }

  lemma StartedCredentials(c: Cluster, n: string, ch: Choice)
    requires Supported(c, n) && FirstUnmet(c, n) == 5
    ensures var d := Started(c, n, ch); d == c.(credentials := d.credentials)
  {
  }

  /** Publishing takes two passes; then the databases get the password that nothing holds. */
  lemma PassPublishes(c: Cluster, n: string, ch: Choice)
    requires Supported(c, n) && 4 <= FirstUnmet(c, n) <= 5 && !ch.sqlFails
    ensures var d := Pass(c, n, ch);
            && Supported(d, n) && FirstUnmet(d, n) > FirstUnmet(c, n)
            && d.passwords == c.passwords && d.proxyService == c.proxyService
            && d.sites[n].annotations == c.sites[n].annotations
  {
    PassServes(c, n, ch);
    CurrentIsSame(c, n);
    EarlyProgress(Current(c), n, ch);
    if FirstUnmet(c, n) == 4 {
      StartedDomains(Current(c), n, ch);
    } else {
      StartedCredentials(Current(c), n, ch);
    }
  }

  /** Without annotations there is no job to start. */
  lemma NoJob(annotations: map<string, string>, rootFirst: bool)
    requires annotations == map[]
    ensures NextJob(annotations, rootFirst).None?
  {
  }

  lemma RoutedShares(c: Cluster, n: string)
    requires n in c.sites
    ensures var d := WithIngress(c, n); d.passwords == c.passwords && d.users == c.users
  {
  }

  lemma FinishedShares(c: Cluster, n: string, ch: Choice)
    requires n in c.sites && c.sites[n].annotations == map[]
    ensures var d := Finished(c, n, ch).cluster; d.passwords == c.passwords && d.users == c.users
  {
    NoJob(c.sites[n].annotations, ch.rootFirst);
    RoutedShares(c, n);
    assert Finished(c, n, ch).cluster.users == c.users;
  }

  lemma PassProvisions(c: Cluster, n: string, ch: Choice)
    requires Supported(c, n) && FirstUnmet(c, n) == 6 && c.proxyService && c.sites[n].annotations == map[]
             && !ch.sqlFails
    ensures var d := Pass(c, n, ch);
            && d.passwords == c.passwords && n in c.passwords
            && DatabaseName(n) in d.users && d.users[DatabaseName(n)] == Some(c.passwords[n].password)
  {
    PassServes(c, n, ch);
    CurrentIsSame(c, n);
    var b := Current(c);
    FinishedShares(WithDatabase(b, n), n, ch);
    assert Pass(c, n, ch) == Finished(WithDatabase(b, n), n, ch).cluster;
  }

  lemma Collect(s: State, n: string, password: string)
    requires s.cluster.Valid() && Lingers(s.cluster, n, password) && s.WorkerOf(n).Idle?
    ensures var t := After(s, DeletePassword(n)); t.cluster.users == s.cluster.users && n !in t.cluster.passwords
  {
  }

  // ---- The run ----

  /** The first life: a Site with its password Secret. */
  lemma Serve(s: State, n: string, id: string, ch: Choice) returns (events: seq<Event>)
    requires Initial(s) && n in s.names && id != "" && !ch.sqlFails
    ensures var t := Run(s, events);
            && Furnished(t.cluster) && Stands(t.cluster, n, id) && t.cluster.ids.Keys == {id} && t.WorkerOf(n).Idle?
            && n in t.cluster.passwords
            && t.cluster.passwords[n] == PasswordSecret([PASSWORD_FINALIZER], false, ch.password)
  {
    events := Furnish(s);
    Create(Run(s, events), n, id);
    RunOn(s, events, CreateSite(n, NewSite(id)));
    events := events + [CreateSite(n, NewSite(id))];
    PassMakesPassword(Run(s, events).cluster, n, id, ch);
    events := PassOn(s, events, n, ch);
  }

  /** Its end: the Secret lingers. */
  lemma FirstLife(s: State, n: string, id: string, ch: Choice) returns (events: seq<Event>)
    requires Initial(s) && n in s.names && id != "" && !ch.sqlFails
    ensures var t := Run(s, events);
            && Furnished(t.cluster) && n !in t.cluster.sites && Lingers(t.cluster, n, ch.password)
            && t.cluster.ids.Keys == {id} && t.WorkerOf(n).Idle?
  {
    events := Serve(s, n, id, ch);
    Delete(Run(s, events), n, id);
    RunOn(s, events, DeleteSite(n));
    events := events + [DeleteSite(n)];
    PassLeavesSecret(Run(s, events).cluster, n, id, ch.password, ch);
    events := PassOn(s, events, n, ch);
  }

  /** The second life: up to a database user with the lingering Secret's password. */
  lemma SecondLife(s: State, n: string, id: string, password: string, ch: Choice, before: seq<Event>)
    returns (events: seq<Event>)
    requires s.cluster.Valid() && n in s.names && id != "" && !ch.sqlFails
    requires var t := Run(s, before);
             && Furnished(t.cluster) && n !in t.cluster.sites && Lingers(t.cluster, n, password)
             && id !in t.cluster.ids && t.WorkerOf(n).Idle?
    ensures var t := Run(s, events);
            && Lingers(t.cluster, n, password) && t.WorkerOf(n).Idle?
            && DatabaseName(n) in t.cluster.users && t.cluster.users[DatabaseName(n)] == Some(password)
  {
    Create(Run(s, before), n, id);
    RunOn(s, before, CreateSite(n, NewSite(id)));
    events := before + [CreateSite(n, NewSite(id))];
    StandsServed(Run(s, events).cluster, n, id);
    while FirstUnmet(Run(s, events).cluster, n) < 6
      invariant var t := Run(s, events);
                && Supported(t.cluster, n) && FirstUnmet(t.cluster, n) >= 4 && t.cluster.proxyService
                && t.cluster.sites[n].annotations == map[]
                && Lingers(t.cluster, n, password) && t.WorkerOf(n).Idle?
      decreases 6 - FirstUnmet(Run(s, events).cluster, n)
    {
      PassPublishes(Run(s, events).cluster, n, ch);
      events := PassOn(s, events, n, ch);
    }
    PassProvisions(Run(s, events).cluster, n, ch);
    events := PassOn(s, events, n, ch);
  }

  /** From the start: a Site is created, served once, deleted, and created again over the Secret that
      lingers; the garbage collector then takes the Secret, and the database user that the second Site
      got has a password that is recorded nowhere. */
  lemma InheritedSecretIsLost(s: State, n: string, first: string, second: string, ch: Choice)
    returns (events: seq<Event>)
    requires Initial(s) && n in s.names && first != "" && second != "" && first != second && !ch.sqlFails
    ensures var c := Run(s, events).cluster;
            && n !in c.passwords && DatabaseName(n) in c.users && c.users[DatabaseName(n)] == Some(ch.password)
            && !UserAgrees(c, n)
  {
    events := FirstLife(s, n, first, ch);
    events := SecondLife(s, n, second, ch.password, ch, events);
    Collect(Run(s, events), n, ch.password);
    RunOn(s, events, DeletePassword(n));
    events := events + [DeletePassword(n)];
  }
}
