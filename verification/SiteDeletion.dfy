/** When deleting a Site completes, when it never does, and what the guards are needed for. */
module SiteDeletion {
  import opened Options
  import opened SiteTypes
  import opened SharedObject
  import opened Finalizers
  import opened Cluster
  import opened SiteWorker
  import opened SiteSafety
  import opened SitePass

  // ---- A pass over a Site that is marked for deletion, from the last stage to the first ----

  /** The Site without its finalizer: gone, or still there for someone else's. */
  function SiteReleased(c: Cluster, n: string): Cluster
    requires n in c.sites
  {
    c.PutSite(n, c.sites[n].(finalizers := Without(c.sites[n].finalizers, SITE_FINALIZER)))
  }

  /** Both finalizers released, if the password Secret has its own. */
  function BothReleased(c: Cluster, n: string): (d: Cluster)
    requires c.Valid() && n in c.sites && n in c.passwords
    ensures d.Valid()
  {
    if !c.PasswordHeld(n) then c
    else SiteReleased(PasswordFreed(c, n), n)
  }

  lemma ReleaseSiteStage(c: Cluster, n: string, ch: Choice)
    requires c.Valid() && n in c.sites && c.sites[n].Protected()
    ensures Advance(c, n, c.sites[n], ReleaseSite, ch) == End(SiteReleased(c, n))
  {
  }

  lemma DriveReleasesSite(c: Cluster, n: string, ch: Choice)
    requires c.Valid() && n in c.sites && c.sites[n].Protected()
    ensures Drive(c, n, c.sites[n], ReleaseSite, ch).cluster == SiteReleased(c, n)
  {
    ReleaseSiteStage(c, n, ch);
    DriveEnds(c, n, c.sites[n], ReleaseSite, ch, SiteReleased(c, n));
  }

  /** The password Secret after finalizeDbPwdSecret. */
  function PasswordFreed(c: Cluster, n: string): (d: Cluster)
    requires c.Valid()
    ensures d.Valid() && !d.PasswordHeld(n) && d.sites == c.sites
  {
    if !c.PasswordHeld(n) then c
    else
      WithoutIsFree(c.passwords[n].finalizers, PASSWORD_FINALIZER);
      c.PutPassword(n, c.passwords[n].(finalizers := Without(c.passwords[n].finalizers, PASSWORD_FINALIZER)))
  }

  lemma WithoutIsFree(list: seq<string>, f: string)
    ensures f !in Without(list, f)
  {
    WithoutMembers(list, f);
  }

  lemma ReleasePasswordStage(c: Cluster, n: string, site: Site, ch: Choice)
    requires c.Valid()
    ensures Advance(c, n, site, ReleasePassword, ch)
            == if n in c.passwords && !c.passwords[n].Held() then End(c)
               else Next(PasswordFreed(c, n), site, ReleaseSite)
  {
  }

  lemma DriveReleasesPassword(c: Cluster, n: string, ch: Choice)
    requires c.Valid() && n in c.sites && c.sites[n].Protected() && n in c.passwords
    ensures Drive(c, n, c.sites[n], ReleasePassword, ch).cluster == BothReleased(c, n)
  {
    ReleasePasswordStage(c, n, c.sites[n], ch);
    if c.PasswordHeld(n) {
      var d := PasswordFreed(c, n);
      DriveOn(c, n, c.sites[n], ReleasePassword, ch, d, ReleaseSite);
      DriveReleasesSite(d, n, ch);
    } else {
      DriveEnds(c, n, c.sites[n], ReleasePassword, ch, c);
    }
  }

  /** ProxySQL without the site's row, if the statement has an effect. */
  function RowDropped(c: Cluster, n: string, ch: Choice): Cluster {
    if c.proxyService && !ch.sqlFails
    then c.(proxyUsers := c.proxyUsers - {DatabaseName(n)}, orphaned := c.orphaned - {n})
    else c
  }

  /** The databases without the site's database and its users. */
  function Dropped(c: Cluster, n: string, ch: Choice): Cluster {
    RowDropped(c.(databases := c.databases - {DatabaseName(n)}, users := c.users - {DatabaseName(n)}), n, ch)
  }

  lemma DropProxyUserStage(c: Cluster, n: string, site: Site, ch: Choice)
    requires c.Valid()
    ensures Advance(c, n, site, DropProxyUser, ch) == Next(RowDropped(c, n, ch), site, ReleasePassword)
  {
  }

  lemma DropUserStage(c: Cluster, n: string, site: Site, ch: Choice)
    requires c.Valid()
    ensures Advance(c, n, site, DropUser, ch) == Next(c.(users := c.users - {DatabaseName(n)}), site, DropProxyUser)
  {
  }

  lemma DropDatabaseStage(c: Cluster, n: string, site: Site, ch: Choice)
    requires c.Valid()
    ensures Advance(c, n, site, DropDatabase, ch)
            == if n in c.passwords then Next(c.(databases := c.databases - {DatabaseName(n)}), site, DropUser)
               else End(c)
  {
  }

  lemma DriveDropsUser(c: Cluster, n: string, site: Site, ch: Choice, u: Cluster)
    requires c.Valid() && u == c.(users := c.users - {DatabaseName(n)})
    ensures Drive(c, n, site, DropUser, ch) == Drive(RowDropped(u, n, ch), n, site, ReleasePassword, ch)
  {
    DropUserStage(c, n, site, ch);
    DriveOn(c, n, site, DropUser, ch, u, DropProxyUser);
    DropProxyUserStage(u, n, site, ch);
    DriveOn(u, n, site, DropProxyUser, ch, RowDropped(u, n, ch), ReleasePassword);
  }

  lemma DriveDropsDatabase(c: Cluster, n: string, site: Site, ch: Choice)
    requires c.Valid()
    ensures Drive(c, n, site, DropDatabase, ch)
            == if n in c.passwords then Drive(Dropped(c, n, ch), n, site, ReleasePassword, ch)
               else Finish(c, DropDatabase)
  {
    DropDatabaseStage(c, n, site, ch);
    if n in c.passwords {
      var b := c.(databases := c.databases - {DatabaseName(n)});
      DriveOn(c, n, site, DropDatabase, ch, b, DropUser);
      DriveDropsUser(b, n, site, ch, b.(users := b.users - {DatabaseName(n)}));
    } else {
      DriveEnds(c, n, site, DropDatabase, ch, c);
    }
  }

  /** The databases before the finalizers are released: database, user and, where ProxySQL answers, the
      row are gone, and a row that is gone is no leftover any more. */
  lemma DroppedOutcome(c: Cluster, n: string, ch: Choice)
    ensures var d, row := Dropped(c, n, ch), c.proxyService && !ch.sqlFails;
            && d.databases == c.databases - {DatabaseName(n)}
            && d.users == c.users - {DatabaseName(n)}
            && d.proxyUsers == (if row then c.proxyUsers - {DatabaseName(n)} else c.proxyUsers)
            && d.orphaned == (if row then c.orphaned - {n} else c.orphaned)
            && d == c.(databases := d.databases, users := d.users, proxyUsers := d.proxyUsers, orphaned := d.orphaned)
  {
  }

  /** The entry of one Id is gone from the live object, and all else is still there. */
  predicate Forgot<V(==)>(a: Shared<map<string, V>>, b: Shared<map<string, V>>, id: string)
    requires a.Valid() && b.Valid()
  {
    match a.Live()
    case None => b.Live() == None
    case Some(data) => b.Live() == Some(data - {id})
  }

  /** The ConfigMap and the Secret after a pass with current reads has removed the site's entry. */
  function Forget<V(==)>(a: Shared<map<string, V>>, id: string): (b: Shared<map<string, V>>)
    requires a.Valid()
    ensures b.Valid() && Forgot(a, b, id)
  {
    if a.Live().None? then a
    else
      var held := Snapshot(|a.log| - 1, a.Live().value);
      a.Write(held, held.data - {id}).shared
  }

  lemma DomainsStages(c: Cluster, n: string, site: Site, ch: Choice, held: Snapshot<Domains>)
    requires c.Valid() && held.position == c.domains.cache == |c.domains.log| - 1 && c.domains.Live() == Some(held.data)
    ensures Advance(c, n, site, ForgetDomains, ch) == Next(c, site, ForgetDomainsWrite(held))
    ensures Advance(c, n, site, ForgetDomainsWrite(held), ch)
            == Next(c.(domains := Forget(c.domains, site.Id())), site, DropDatabase)
  {
  }

  lemma DriveForgetsDomains(c: Cluster, n: string, site: Site, ch: Choice)
    requires c.Valid() && c.domains.cache == |c.domains.log| - 1
    ensures Drive(c, n, site, ForgetDomains, ch)
            == Drive(c.(domains := Forget(c.domains, site.Id())), n, site, DropDatabase, ch)
  {
    match c.domains.Live()
    case None =>
      assert Advance(c, n, site, ForgetDomains, ch) == Next(c, site, DropDatabase);
    case Some(data) =>
      var held := Snapshot(c.domains.cache, data);
      DomainsStages(c, n, site, ch, held);
      assert Drive(c, n, site, ForgetDomains, ch) == Drive(c, n, site, ForgetDomainsWrite(held), ch);
  }

  lemma CredentialsStages(c: Cluster, n: string, site: Site, ch: Choice, held: Snapshot<Databases>)
    requires c.Valid() && held.position == c.credentials.cache == |c.credentials.log| - 1
             && c.credentials.Live() == Some(held.data)
    ensures Advance(c, n, site, ForgetCredentials, ch) == Next(c, site, ForgetCredentialsWrite(held))
    ensures Advance(c, n, site, ForgetCredentialsWrite(held), ch)
            == Next(c.(credentials := Forget(c.credentials, site.Id())), site, ForgetDomains)
  {
  }

  lemma DriveForgetsCredentials(c: Cluster, n: string, site: Site, ch: Choice)
    requires c.Valid() && c.credentials.cache == |c.credentials.log| - 1
    ensures Drive(c, n, site, ForgetCredentials, ch)
            == Drive(c.(credentials := Forget(c.credentials, site.Id())), n, site, ForgetDomains, ch)
  {
    match c.credentials.Live()
    case None =>
      assert Advance(c, n, site, ForgetCredentials, ch) == Next(c, site, ForgetDomains);
    case Some(data) =>
      var held := Snapshot(c.credentials.cache, data);
      CredentialsStages(c, n, site, ch, held);
      assert Drive(c, n, site, ForgetCredentials, ch) == Drive(c, n, site, ForgetCredentialsWrite(held), ch);
  }

  lemma DriveForgets(c: Cluster, n: string, site: Site, ch: Choice)
    requires c.Valid() && c.domains.cache == |c.domains.log| - 1 && c.credentials.cache == |c.credentials.log| - 1
    ensures Drive(c, n, site, ForgetCredentials, ch) == Drive(Forgotten(c, site.Id()), n, site, DropDatabase, ch)
  {
    DriveForgetsCredentials(c, n, site, ch);
    DriveForgetsDomains(c.(credentials := Forget(c.credentials, site.Id())), n, site, ch);
  }

  function Forgotten(c: Cluster, id: string): (d: Cluster)
    requires c.Valid()
    ensures d.Valid()
  {
    c.(credentials := Forget(c.credentials, id), domains := Forget(c.domains, id))
  }

  /** All that a pass without failures does to a Site that is being deleted. */
  function Deleted(c: Cluster, n: string, ch: Choice): (d: Cluster)
    requires c.Valid() && n in c.sites
    ensures d.Valid()
  {
    var e := Forgotten(Current(c), c.sites[n].Id());
    if n in c.passwords then BothReleased(Dropped(e, n, ch), n) else e
  }

  lemma PassDeletes(c: Cluster, n: string, ch: Choice)
    requires c.Valid() && n in c.sites && c.sites[n].Id() != ""
    requires c.sites[n].deleting && c.sites[n].Protected()
    ensures Pass(c, n, ch) == Deleted(c, n, ch)
  {
    assert Begin(c, n) == Busy(c.sites[n], ForgetCredentials);
    DriveForgets(Current(c), n, c.sites[n], ch);
    var e := Forgotten(Current(c), c.sites[n].Id());
    DriveDropsDatabase(e, n, c.sites[n], ch);
    if n in c.passwords {
      DriveReleasesPassword(Dropped(e, n, ch), n, ch);
    }
  }

  lemma SiteReleasedOutcome(c: Cluster, n: string)
    requires n in c.sites && c.sites[n].deleting
    ensures var d := SiteReleased(c, n);
            && !d.SiteProtected(n) && (n in d.sites <==> Without(c.sites[n].finalizers, SITE_FINALIZER) != [])
            && d == c.(sites := d.sites, clock := d.clock)
  {
    WithoutIsFree(c.sites[n].finalizers, SITE_FINALIZER);
  }

  lemma ReleasedOutcome(c: Cluster, n: string)
    requires c.Valid() && c.PasswordHeld(n) && n in c.sites && c.sites[n].deleting
    ensures var d := BothReleased(c, n);
            && !d.SiteProtected(n) && !d.PasswordHeld(n) && Released(c, d, n)
            && d.orphaned == PasswordFreed(c, n).orphaned
  {
    SiteReleasedOutcome(PasswordFreed(c, n), n);
    FreedFrame(c, n);
  }

  /** Of the Site and its Secret nothing is left, or what is left lacks its finalizer and nothing else. */
  predicate Released(c: Cluster, d: Cluster, n: string) {
    && n in c.sites && n in c.passwords
    && var site, secret := c.sites[n], c.passwords[n];
       && (n in d.sites <==> Without(site.finalizers, SITE_FINALIZER) != [])
       && (n in d.sites ==>
             d.sites[n] == site.(version := d.sites[n].version, finalizers := Without(site.finalizers, SITE_FINALIZER)))
       && (n in d.passwords ==>
             d.passwords[n] == secret.(finalizers := Without(secret.finalizers, PASSWORD_FINALIZER)))
       && (n in d.passwords <==> !secret.deleting || Without(secret.finalizers, PASSWORD_FINALIZER) != [])
  }

  lemma FreedFrame(c: Cluster, n: string)
    requires c.Valid()
    ensures var d := PasswordFreed(c, n);
            && d == c.(passwords := d.passwords, orphaned := d.orphaned) && c.orphaned - {n} == d.orphaned - {n}
            && (n in d.passwords ==> d.orphaned == c.orphaned)
            && (n in d.passwords && c.PasswordHeld(n) ==>
                  d.passwords[n] == c.passwords[n].(finalizers := d.passwords[n].finalizers)
                  && d.passwords[n].finalizers == Without(c.passwords[n].finalizers, PASSWORD_FINALIZER))
  {
    if c.PasswordHeld(n) {
      PutPasswordShape(c, n, c.passwords[n].(finalizers := Without(c.passwords[n].finalizers, PASSWORD_FINALIZER)));
    }
  }

  lemma ReleasedFrame(c: Cluster, n: string)
    requires c.Valid() && n in c.passwords && n in c.sites
    ensures var d := BothReleased(c, n);
            d == c.(sites := d.sites, passwords := d.passwords, clock := d.clock, orphaned := d.orphaned)
  {
    if c.PasswordHeld(n) {
      FreedFrame(c, n);
      var e := PasswordFreed(c, n);
      assert SiteReleased(e, n) == e.(sites := SiteReleased(e, n).sites, clock := SiteReleased(e, n).clock);
    }
  }

  /** The shared maps and the databases after the pass. */
  lemma DeletedStores(c: Cluster, n: string, ch: Choice)
    requires c.Valid() && n in c.sites
    ensures var d := Deleted(c, n, ch);
            && Forgot(c.credentials, d.credentials, c.sites[n].Id()) && Forgot(c.domains, d.domains, c.sites[n].Id())
            && d.databases == (if n in c.passwords then c.databases - {DatabaseName(n)} else c.databases)
            && d.users == (if n in c.passwords then c.users - {DatabaseName(n)} else c.users)
            && d.proxyUsers == (if n in c.passwords && c.proxyService && !ch.sqlFails
                                then c.proxyUsers - {DatabaseName(n)} else c.proxyUsers)
  {
    if n in c.passwords {
      DroppedOutcome(Forgotten(Current(c), c.sites[n].Id()), n, ch);
      ReleasedFrame(Dropped(Forgotten(Current(c), c.sites[n].Id()), n, ch), n);
    }
  }

  lemma DeletedHeld(c: Cluster, n: string, ch: Choice)
    requires c.Valid() && n in c.sites && c.sites[n].deleting && c.PasswordHeld(n)
    ensures var d := Deleted(c, n, ch);
            && !d.SiteProtected(n) && !d.PasswordHeld(n) && Released(c, d, n)
            && (c.proxyService && !ch.sqlFails && n in d.passwords ==> n !in d.orphaned)
  {
    DroppedOutcome(Forgotten(Current(c), c.sites[n].Id()), n, ch);
    FreedFrame(Dropped(Forgotten(Current(c), c.sites[n].Id()), n, ch), n);
    ReleasedOutcome(Dropped(Forgotten(Current(c), c.sites[n].Id()), n, ch), n);
  }

  lemma DeletedUnheld(c: Cluster, n: string, ch: Choice)
    requires c.Valid() && n in c.sites && !c.PasswordHeld(n)
    ensures var d := Deleted(c, n, ch);
            && d.sites == c.sites && d.passwords == c.passwords
            && d.orphaned == (if n in c.passwords && c.proxyService && !ch.sqlFails
                              then c.orphaned - {n} else c.orphaned)
  {
  }

  /** What is gone after the pass: the entries in both shared maps in any case, the database and its
      users if the password Secret exists, the ProxySQL row if ProxySQL answers too, both finalizers if
      the Secret carries its own; and an absent or unheld Secret leaves the Site held. */
  lemma DeletedOutcome(c: Cluster, n: string, ch: Choice)
    requires c.Valid() && n in c.sites && c.sites[n].deleting && c.sites[n].Protected()
    ensures var d := Deleted(c, n, ch);
            && Forgot(c.credentials, d.credentials, c.sites[n].Id()) && Forgot(c.domains, d.domains, c.sites[n].Id())
            && d.databases == (if n in c.passwords then c.databases - {DatabaseName(n)} else c.databases)
            && d.users == (if n in c.passwords then c.users - {DatabaseName(n)} else c.users)
            && d.proxyUsers == (if n in c.passwords && c.proxyService && !ch.sqlFails
                                then c.proxyUsers - {DatabaseName(n)} else c.proxyUsers)
            && (if c.PasswordHeld(n)
                then
                  && !d.SiteProtected(n) && !d.PasswordHeld(n) && Released(c, d, n)
                  && (c.proxyService && !ch.sqlFails && n in d.passwords ==> n !in d.orphaned)
                else
                  && d.sites == c.sites && d.passwords == c.passwords
                  && d.orphaned == (if n in c.passwords && c.proxyService && !ch.sqlFails
                                    then c.orphaned - {n} else c.orphaned))
  {
    DeletedStores(c, n, ch);
    if c.PasswordHeld(n) {
      DeletedHeld(c, n, ch);
    } else {
      DeletedUnheld(c, n, ch);
    }
  }

  /** Deletion completes if and only if the password Secret still carries its finalizer. */
  lemma DeletionCompletesIff(c: Cluster, n: string, ch: Choice)
    requires c.Valid() && n in c.sites && c.sites[n].Id() != ""
    requires c.sites[n].deleting && c.sites[n].Protected()
    ensures !Pass(c, n, ch).SiteProtected(n) <==> c.PasswordHeld(n)
  {
    PassDeletes(c, n, ch);
    DeletedOutcome(c, n, ch);
  }

  /** Deleting one Site drops the database of another exactly if their names sanitize alike. */
  lemma DeletionDropsOtherIff(c: Cluster, n: string, m: string, ch: Choice)
    requires c.Valid() && n in c.sites && c.sites[n].Id() != "" && c.sites[n].deleting && c.sites[n].Protected()
    requires n in c.passwords && DatabaseName(m) in c.databases
    ensures DatabaseName(m) !in Pass(c, n, ch).databases <==> DatabaseName(m) == DatabaseName(n)
  {
    PassDeletes(c, n, ch);
    DeletedOutcome(c, n, ch);
  }

  /** Two names that the API server tells apart. */
  lemma DatabaseNamesCollide(s: string, t: string)
    ensures s + "-" + t != s + t && DatabaseName(s + "-" + t) == DatabaseName(s + t)
  {
    SanitizeCollides(s, t, '-');
  }
}
