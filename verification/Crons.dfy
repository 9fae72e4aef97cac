/** CronJobs of a site (pkg/controller/site/jobs.go): one change per pass. */
module Crons {
  import opened SiteTypes
  import opened Cluster

  const DEADLINE := 900

  /** The CronJob wanted for one entry of the site's specification. */
  function CustomerCronJob(site: Site, cron: CronSpec): CronJob {
    CronJob(cron.name, CronLabels(site), cron.suspend, cron.schedule,
            if cron.concurrencyPolicy == "" then "Forbid" else cron.concurrencyPolicy,
            cron.command, DEADLINE, site.spec.environment)
  }

  function CronLabels(site: Site): Labels {
    site.ChildLabels()["type" := "cron"]
  }

  /** An existing CronJob keeps its template apart from the command. */
  function SyncedCron(existing: CronJob, wanted: CronJob): CronJob {
    wanted.(name := existing.name, template := existing.template)
  }

  ghost predicate UniqueCrons(crons: seq<CronJob>) {
    forall i, j :: 0 <= i < j < |crons| ==> crons[i].name != crons[j].name
  }

  /** The position of the CronJob of a name; the length of the list if there is none. */
  function Find(crons: seq<CronJob>, name: string): (i: nat)
    ensures i <= |crons|
    ensures i < |crons| ==> crons[i].name == name
    ensures forall k :: 0 <= k < i ==> crons[k].name != name
    decreases |crons|
  {
    if crons == [] then 0
    else if crons[0].name == name then 0
    else
      var i := Find(crons[1..], name);
      assert forall k :: 1 <= k < i + 1 ==> crons[k] == crons[1..][k - 1];
      i + 1
  }

  predicate Owned(c: CronJob, id: string) {
    SITE_ID in c.labels && c.labels[SITE_ID] == id
  }

  predicate Named(specs: seq<CronSpec>, name: string) {
    exists i :: 0 <= i < |specs| && specs[i].name == name
  }

  /** A CronJob with the site's label that the specification does not name. */
  predicate Unwanted(c: CronJob, id: string, specs: seq<CronSpec>) {
    Owned(c, id) && !Named(specs, c.name)
  }

  /** The first unwanted CronJob of the list. */
  function FirstUnwanted(crons: seq<CronJob>, id: string, specs: seq<CronSpec>): (i: nat)
    ensures i <= |crons|
    ensures i < |crons| ==> Unwanted(crons[i], id, specs)
    ensures forall k :: 0 <= k < i ==> !Unwanted(crons[k], id, specs)
    decreases |crons|
  {
    if crons == [] then 0
    else if Unwanted(crons[0], id, specs) then 0
    else
      var i := FirstUnwanted(crons[1..], id, specs);
      assert forall k :: 1 <= k < i + 1 ==> crons[k] == crons[1..][k - 1];
      i + 1
  }

  /** CreateOrUpdate on one entry. */
  function Ensured(crons: seq<CronJob>, wanted: CronJob): (r: seq<CronJob>) {
    var i := Find(crons, wanted.name);
    if i == |crons| then crons + [wanted] else crons[i := SyncedCron(crons[i], wanted)]
  }

  predicate Settled(crons: seq<CronJob>, wanted: CronJob) {
    var i := Find(crons, wanted.name);
    i < |crons| && SyncedCron(crons[i], wanted) == crons[i]
  }

  /** The first entry of the specification whose CronJob is missing or out of date. */
  function FirstUnsettled(crons: seq<CronJob>, site: Site, specs: seq<CronSpec>): (i: nat)
    ensures i <= |specs|
    ensures i < |specs| ==> !Settled(crons, CustomerCronJob(site, specs[i]))
    ensures forall k :: 0 <= k < i ==> Settled(crons, CustomerCronJob(site, specs[k]))
    decreases |specs|
  {
    if specs == [] then 0
    else if !Settled(crons, CustomerCronJob(site, specs[0])) then 0
    else
      var i := FirstUnsettled(crons, site, specs[1..]);
      assert forall k :: 1 <= k < i + 1 ==> specs[k] == specs[1..][k - 1];
      i + 1
  }

  /** One pass over the CronJobs: delete one unwanted, else create or update one, else nothing. */
  function CronPass(crons: seq<CronJob>, site: Site): seq<CronJob> {
    var u := FirstUnwanted(crons, site.Id(), site.spec.crons);
    if u < |crons| then crons[..u] + crons[u + 1..]
    else
      var i := FirstUnsettled(crons, site, site.spec.crons);
      if i < |site.spec.crons| then Ensured(crons, CustomerCronJob(site, site.spec.crons[i])) else crons
  }

  /** Nothing is left to do. */
  predicate CronsSettled(crons: seq<CronJob>, site: Site) {
    && FirstUnwanted(crons, site.Id(), site.spec.crons) == |crons|
    && FirstUnsettled(crons, site, site.spec.crons) == |site.spec.crons|
  }

  // ---- The measure ----

  function CountUnwanted(crons: seq<CronJob>, id: string, specs: seq<CronSpec>): (n: nat)
    ensures n <= |crons|
    decreases |crons|
  {
    if crons == [] then 0
    else (if Unwanted(crons[0], id, specs) then 1 else 0) + CountUnwanted(crons[1..], id, specs)
  }

  /** The entries from position `from` on that are missing or out of date. */
  function CountUnsettled(crons: seq<CronJob>, site: Site, specs: seq<CronSpec>): (n: nat)
    ensures n <= |specs|
    decreases |specs|
  {
    if specs == [] then 0
    else (if Settled(crons, CustomerCronJob(site, specs[0])) then 0 else 1) + CountUnsettled(crons, site, specs[1..])
  }

  function CronWork(crons: seq<CronJob>, site: Site): nat {
    CountUnwanted(crons, site.Id(), site.spec.crons) + CountUnsettled(crons, site, site.spec.crons)
  }

  /** Entries of one name want the same CronJob; distinct names are the usual case of this. */
  ghost predicate Consistent(site: Site) {
    forall i, j :: 0 <= i < |site.spec.crons| && 0 <= j < |site.spec.crons|
      && site.spec.crons[i].name == site.spec.crons[j].name
      ==> CustomerCronJob(site, site.spec.crons[i]) == CustomerCronJob(site, site.spec.crons[j])
  }

  /** No other site's CronJob has a name that this site's specification uses. */
  ghost predicate NoForeignNames(crons: seq<CronJob>, site: Site) {
    forall k :: 0 <= k < |crons| && Named(site.spec.crons, crons[k].name) ==> Owned(crons[k], site.Id())
  }

  lemma {:induction false} CountUnwantedRemoved(crons: seq<CronJob>, u: nat, id: string, specs: seq<CronSpec>)
    requires u < |crons|
    ensures CountUnwanted(crons[..u] + crons[u + 1..], id, specs) + (if Unwanted(crons[u], id, specs) then 1 else 0)
            == CountUnwanted(crons, id, specs)
    decreases |crons|
  {
    var r := crons[..u] + crons[u + 1..];
    if u == 0 {
      assert r == crons[1..];
    } else {
      assert r[1..] == crons[1..][..u - 1] + crons[1..][u..];
      CountUnwantedRemoved(crons[1..], u - 1, id, specs);
    }
  }

  lemma {:induction false} CountUnwantedZero(crons: seq<CronJob>, id: string, specs: seq<CronSpec>)
    ensures CountUnwanted(crons, id, specs) == 0 <==> FirstUnwanted(crons, id, specs) == |crons|
    decreases |crons|
  {
    if crons != [] {
      CountUnwantedZero(crons[1..], id, specs);
    }
  }

  lemma {:induction false} CountUnsettledZero(crons: seq<CronJob>, site: Site, specs: seq<CronSpec>)
    ensures CountUnsettled(crons, site, specs) == 0 <==> FirstUnsettled(crons, site, specs) == |specs|
    decreases |specs|
  {
    if specs != [] {
      CountUnsettledZero(crons, site, specs[1..]);
    }
  }

  /** The CronJob found under a name does not depend on where in a duplicate-free list it stands. */
  lemma FindUnique(crons: seq<CronJob>, i: nat)
    requires UniqueCrons(crons) && i < |crons|
    ensures Find(crons, crons[i].name) == i
  {
  }

  /** Whether an entry is settled depends only on the CronJob of its name. */
  lemma SettledByLookup(a: seq<CronJob>, b: seq<CronJob>, w: CronJob)
    requires UniqueCrons(a) && UniqueCrons(b)
    requires forall c: CronJob :: c.name == w.name ==> (c in a <==> c in b)
    ensures Settled(a, w) == Settled(b, w)
  {
    var i, j := Find(a, w.name), Find(b, w.name);
    if i < |a| {
      assert a[i] in b;
      var k :| 0 <= k < |b| && b[k] == a[i];
      FindUnique(b, k);
    }
    if j < |b| {
      assert b[j] in a;
      var k :| 0 <= k < |a| && a[k] == b[j];
      FindUnique(a, k);
    }
  }

  lemma {:induction false} CountUnsettledSame(a: seq<CronJob>, b: seq<CronJob>, site: Site, specs: seq<CronSpec>)
    requires forall i :: 0 <= i < |specs| ==>
               Settled(a, CustomerCronJob(site, specs[i])) == Settled(b, CustomerCronJob(site, specs[i]))
    ensures CountUnsettled(a, site, specs) == CountUnsettled(b, site, specs)
    decreases |specs|
  {
    if specs != [] {
      assert forall i :: 0 <= i < |specs[1..]| ==> specs[1..][i] == specs[i + 1];
      CountUnsettledSame(a, b, site, specs[1..]);
    }
  }

  predicate NewlySettled(a: seq<CronJob>, b: seq<CronJob>, wanted: CronJob) {
    !Settled(a, wanted) && Settled(b, wanted)
  }

  lemma {:induction false} CountUnsettledAtMost(a: seq<CronJob>, b: seq<CronJob>, site: Site, specs: seq<CronSpec>)
    requires forall k :: 0 <= k < |specs| ==>
               (Settled(a, CustomerCronJob(site, specs[k])) ==> Settled(b, CustomerCronJob(site, specs[k])))
    ensures CountUnsettled(b, site, specs) <= CountUnsettled(a, site, specs)
    ensures (exists i :: 0 <= i < |specs| && NewlySettled(a, b, CustomerCronJob(site, specs[i])))
            ==> CountUnsettled(b, site, specs) < CountUnsettled(a, site, specs)
    decreases |specs|
  {
    if specs != [] {
      assert forall k :: 0 <= k < |specs[1..]| ==> specs[1..][k] == specs[k + 1];
      CountUnsettledAtMost(a, b, site, specs[1..]);
      if i :| 0 < i < |specs| && NewlySettled(a, b, CustomerCronJob(site, specs[i])) {
        assert specs[1..][i - 1] == specs[i];
      }
    }
  }

  /** Deleting an unwanted CronJob leaves the others alone. */
  lemma DeleteStep(crons: seq<CronJob>, site: Site, u: nat)
    requires UniqueCrons(crons) && u < |crons| && Unwanted(crons[u], site.Id(), site.spec.crons)
    ensures var r := crons[..u] + crons[u + 1..];
            && UniqueCrons(r)
            && (forall c :: c in r <==> c in crons && c != crons[u])
            && CronWork(r, site) == CronWork(crons, site) - 1
  {
    var r := crons[..u] + crons[u + 1..];
    forall c | c in crons && c != crons[u] ensures c in r {
      var k :| 0 <= k < |crons| && crons[k] == c;
      assert c == if k < u then r[k] else r[k - 1];
    }
    CountUnwantedRemoved(crons, u, site.Id(), site.spec.crons);
    forall i | 0 <= i < |site.spec.crons|
      ensures Settled(r, CustomerCronJob(site, site.spec.crons[i]))
              == Settled(crons, CustomerCronJob(site, site.spec.crons[i]))
    {
      assert crons[u].name != site.spec.crons[i].name;
      SettledByLookup(r, crons, CustomerCronJob(site, site.spec.crons[i]));
    }
    CountUnsettledSame(r, crons, site, site.spec.crons);
  }

  /** The list after CreateOrUpdate: the CronJob of the name is settled, all others are as before. */
  lemma EnsuredMembers(crons: seq<CronJob>, w: CronJob)
    requires UniqueCrons(crons)
    ensures var r := Ensured(crons, w);
            && UniqueCrons(r) && Settled(r, w)
            && (forall c: CronJob :: c.name != w.name ==> (c in r <==> c in crons))
            && (forall c, b: CronJob :: c in r && c.name == w.name && b in crons && b.name == w.name ==>
                  c == w.(template := b.template))
            && ((forall b: CronJob :: b in crons ==> b.name != w.name) ==> r == crons + [w])
  {
    var r := Ensured(crons, w);
    var i := Find(crons, w.name);
    forall c: CronJob | c.name != w.name && c in crons ensures c in r {
      var k :| 0 <= k < |crons| && crons[k] == c;
      assert r[k] == c;
    }
    FindUnique(r, i);
  }

  lemma {:induction false} CountUnwantedUpdated(crons: seq<CronJob>, i: nat, c: CronJob, id: string,
                                                specs: seq<CronSpec>)
    requires i < |crons| && !Unwanted(c, id, specs)
    ensures CountUnwanted(crons[i := c], id, specs) + (if Unwanted(crons[i], id, specs) then 1 else 0)
            == CountUnwanted(crons, id, specs)
    decreases |crons|
  {
    if i == 0 {
      assert crons[i := c][1..] == crons[1..];
    } else {
      assert crons[i := c][1..] == crons[1..][i - 1 := c];
      CountUnwantedUpdated(crons[1..], i - 1, c, id, specs);
    }
  }

  lemma {:induction false} CountUnwantedAppended(crons: seq<CronJob>, c: CronJob, id: string, specs: seq<CronSpec>)
    requires !Unwanted(c, id, specs)
    ensures CountUnwanted(crons + [c], id, specs) == CountUnwanted(crons, id, specs)
    decreases |crons|
  {
    if crons == [] {
      assert [c][1..] == [] && crons + [c] == [c];
    } else {
      assert (crons + [c])[1..] == crons[1..] + [c];
      CountUnwantedAppended(crons[1..], c, id, specs);
    }
  }

  lemma EnsureStep(crons: seq<CronJob>, site: Site, i: nat)
    requires UniqueCrons(crons) && Consistent(site) && i < |site.spec.crons|
    requires !Settled(crons, CustomerCronJob(site, site.spec.crons[i]))
    ensures CronWork(Ensured(crons, CustomerCronJob(site, site.spec.crons[i])), site) < CronWork(crons, site)
  {
    var specs := site.spec.crons;
    var w := CustomerCronJob(site, specs[i]);
    var r := Ensured(crons, w);
    EnsuredMembers(crons, w);
    forall k | 0 <= k < |specs|
      ensures Settled(crons, CustomerCronJob(site, specs[k])) ==> Settled(r, CustomerCronJob(site, specs[k]))
    {
      if specs[k].name != specs[i].name {
        SettledByLookup(crons, r, CustomerCronJob(site, specs[k]));
      }
    }
    CountUnsettledAtMost(crons, r, site, specs);
    assert Named(specs, w.name);
    var j := Find(crons, w.name);
    if j < |crons| {
      CountUnwantedUpdated(crons, j, SyncedCron(crons[j], w), site.Id(), specs);
    } else {
      CountUnwantedAppended(crons, w, site.Id(), specs);
    }
  }

  /** A pass makes one change and takes work away, or there is no work and it changes nothing. */
  lemma CronPassProgress(crons: seq<CronJob>, site: Site)
    requires UniqueCrons(crons) && Consistent(site)
    ensures UniqueCrons(CronPass(crons, site))
    ensures CronsSettled(crons, site) <==> CronWork(crons, site) == 0
    ensures CronsSettled(crons, site) ==> CronPass(crons, site) == crons
    ensures !CronsSettled(crons, site) ==> CronWork(CronPass(crons, site), site) < CronWork(crons, site)
  {
    var u := FirstUnwanted(crons, site.Id(), site.spec.crons);
    CountUnwantedZero(crons, site.Id(), site.spec.crons);
    CountUnsettledZero(crons, site, site.spec.crons);
    if u < |crons| {
      DeleteStep(crons, site, u);
    } else {
      var i := FirstUnsettled(crons, site, site.spec.crons);
      if i < |site.spec.crons| {
        EnsuredMembers(crons, CustomerCronJob(site, site.spec.crons[i]));
        EnsureStep(crons, site, i);
      }
    }
  }

  /** Another site's CronJobs are neither changed nor removed, and none is added, as long as no name
      is shared. */
  lemma CronPassIsLocal(crons: seq<CronJob>, site: Site, c: CronJob)
    requires UniqueCrons(crons) && NoForeignNames(crons, site) && !Owned(c, site.Id())
    ensures c in CronPass(crons, site) <==> c in crons
  {
    var specs := site.spec.crons;
    var u := FirstUnwanted(crons, site.Id(), specs);
    if u < |crons| {
      DeleteStep(crons, site, u);
    } else {
      var i := FirstUnsettled(crons, site, specs);
      if i < |specs| {
        var w := CustomerCronJob(site, specs[i]);
        EnsuredMembers(crons, w);
        assert Named(specs, w.name);
        var r, j := Ensured(crons, w), Find(crons, w.name);
        assert r[j].name == w.name && Owned(r[j], site.Id());
        assert forall k :: 0 <= k < |r| && r[k].name == w.name ==> k == j;
      }
    }
  }

  /** `passes` passes in a row. */
  function CronPasses(crons: seq<CronJob>, site: Site, passes: nat): seq<CronJob>
    decreases passes
  {
    if passes == 0 then crons else CronPasses(CronPass(crons, site), site, passes - 1)
  }

  lemma {:induction false} PassesFinish(crons: seq<CronJob>, site: Site, passes: nat)
    requires UniqueCrons(crons) && Consistent(site) && passes >= CronWork(crons, site)
    ensures UniqueCrons(CronPasses(crons, site, passes)) && CronWork(CronPasses(crons, site, passes), site) == 0
    decreases passes
  {
    if passes > 0 {
      var next := PassOnce(crons, site, passes);
      assert CronPasses(crons, site, passes) == CronPasses(next, site, passes - 1);
      PassesFinish(next, site, passes - 1);
    }
  }

  lemma PassOnce(crons: seq<CronJob>, site: Site, bound: nat) returns (next: seq<CronJob>)
    requires UniqueCrons(crons) && Consistent(site) && bound >= CronWork(crons, site) && bound > 0
    ensures next == CronPass(crons, site) && UniqueCrons(next) && bound - 1 >= CronWork(next, site)
  {
    next := CronPass(crons, site);
    CronPassProgress(crons, site);
  }

  lemma PassesSettle(crons: seq<CronJob>, site: Site, passes: nat)
    requires UniqueCrons(crons) && Consistent(site) && passes >= CronWork(crons, site)
    ensures UniqueCrons(CronPasses(crons, site, passes)) && CronsSettled(CronPasses(crons, site, passes), site)
  {
    PassesFinish(crons, site, passes);
    CronPassProgress(CronPasses(crons, site, passes), site);
  }

  /** A CronJob of the site that does what an entry of its specification says. */
  predicate Runs(c: CronJob, site: Site, s: CronSpec) {
    && c.name == s.name && c.schedule == s.schedule && c.suspend == s.suspend && c.command == s.command
    && c.concurrencyPolicy == (if s.concurrencyPolicy == "" then "Forbid" else s.concurrencyPolicy)
    && c.startingDeadlineSeconds == 900
    && c.labels == map[APPLICATION_ID := Label(site.labels, APPLICATION_ID),
                       ENVIRONMENT_ID := Label(site.labels, ENVIRONMENT_ID),
                       SITE_ID := Label(site.labels, SITE_ID), "type" := "cron"]
  }

  /** A CronJob is created with all that its entry says and the template of the Site's environment. */
  lemma CreatedMeaning(crons: seq<CronJob>, site: Site, s: CronSpec)
    requires forall b :: b in crons ==> b.name != s.name
    ensures var r := Ensured(crons, CustomerCronJob(site, s));
            r == crons + [r[|r| - 1]] && Runs(r[|r| - 1], site, s) && r[|r| - 1].template == site.spec.environment
  {
    var i := Find(crons, s.name);
    assert i == |crons|;
  }

  predicate UpToDate(crons: seq<CronJob>, site: Site, s: CronSpec) {
    exists c :: c in crons && Runs(c, site, s)
  }

  lemma SettledMeaning(crons: seq<CronJob>, site: Site)
    requires CronsSettled(crons, site)
    ensures forall c :: c in crons && Owned(c, site.Id()) ==> Named(site.spec.crons, c.name)
    ensures forall s :: s in site.spec.crons ==> UpToDate(crons, site, s)
  {
    forall s | s in site.spec.crons ensures UpToDate(crons, site, s) {
      var k :| 0 <= k < |site.spec.crons| && site.spec.crons[k] == s;
      assert Settled(crons, CustomerCronJob(site, s));
      assert SITE_ID != "type";
      assert Runs(crons[Find(crons, s.name)], site, s);
    }
  }

  /** With no more passes than there is work, the CronJobs with the site's label become exactly the
      wanted ones, each up to date, and stay so. */
  lemma CronsConverge(crons: seq<CronJob>, site: Site, passes: nat)
    requires UniqueCrons(crons) && Consistent(site) && passes >= CronWork(crons, site)
    ensures var r := CronPasses(crons, site, passes);
            && CronPass(r, site) == r
            && (forall c :: c in r && Owned(c, site.Id()) ==> Named(site.spec.crons, c.name))
            && (forall s :: s in site.spec.crons ==> UpToDate(r, site, s))
  {
    PassesSettle(crons, site, passes);
    CronPassProgress(CronPasses(crons, site, passes), site);
    SettledMeaning(CronPasses(crons, site, passes), site);
  }

  lemma SettledImpliesConsistent(crons: seq<CronJob>, site: Site)
    requires CronsSettled(crons, site)
    ensures Consistent(site)
  {
    forall i, j | 0 <= i < |site.spec.crons| && 0 <= j < |site.spec.crons|
      && site.spec.crons[i].name == site.spec.crons[j].name
      ensures CustomerCronJob(site, site.spec.crons[i]) == CustomerCronJob(site, site.spec.crons[j])
    {
      assert Settled(crons, CustomerCronJob(site, site.spec.crons[i]));
      assert Settled(crons, CustomerCronJob(site, site.spec.crons[j]));
    }
  }

  predicate AtRestAfter(crons: seq<CronJob>, site: Site, passes: nat) {
    CronsSettled(CronPasses(crons, site, passes), site)
  }

  /** Passes ever come to rest exactly when entries of one name want the same CronJob: two that
      differ overwrite each other forever. */
  lemma RestIffConsistent(crons: seq<CronJob>, site: Site)
    requires UniqueCrons(crons)
    ensures (exists passes: nat :: AtRestAfter(crons, site, passes)) <==> Consistent(site)
  {
    if passes: nat :| AtRestAfter(crons, site, passes) {
      SettledImpliesConsistent(CronPasses(crons, site, passes), site);
    }
    if Consistent(site) {
      var work := CronWork(crons, site);
      PassesSettle(crons, site, work);
      assert AtRestAfter(crons, site, work);
    }
  }

  lemma SettledLabels(crons: seq<CronJob>, site: Site, name: string)
    requires CronsSettled(crons, site) && Named(site.spec.crons, name)
    ensures Find(crons, name) < |crons| && crons[Find(crons, name)].labels == CronLabels(site)
  {
    var i :| 0 <= i < |site.spec.crons| && site.spec.crons[i].name == name;
    assert Settled(crons, CustomerCronJob(site, site.spec.crons[i]));
  }

  // ---- Two sites ----

  predicate SharesName(a: Site, b: Site) {
    exists i :: 0 <= i < |a.spec.crons| && Named(b.spec.crons, a.spec.crons[i].name)
  }

  /** Two sites that use one CronJob name are never at rest together. */
  lemma SharedNamesNeverRest(crons: seq<CronJob>, a: Site, b: Site)
    requires a.Id() != b.Id() && CronsSettled(crons, a) && CronsSettled(crons, b)
    ensures !SharesName(a, b)
  {
    assert CronLabels(a)[SITE_ID] == a.Id() && CronLabels(b)[SITE_ID] == b.Id();
    if i :| 0 <= i < |a.spec.crons| && Named(b.spec.crons, a.spec.crons[i].name) {
      var name := a.spec.crons[i].name;
      assert Named(a.spec.crons, name);
      SettledLabels(crons, a, name);
      SettledLabels(crons, b, name);
      assert false;
    }
  }

  /** A CronJob that one site deletes is not one that the other has settled. */
  lemma DeleteKeepsOther(crons: seq<CronJob>, a: Site, b: Site, u: nat)
    requires UniqueCrons(crons) && u < |crons| && Unwanted(crons[u], b.Id(), b.spec.crons) && a.Id() != b.Id()
    ensures CronWork(crons[..u] + crons[u + 1..], a) <= CronWork(crons, a)
  {
    var r := crons[..u] + crons[u + 1..];
    DeleteStep(crons, b, u);
    CountUnwantedRemoved(crons, u, a.Id(), a.spec.crons);
    forall k | 0 <= k < |a.spec.crons|
      ensures Settled(crons, CustomerCronJob(a, a.spec.crons[k])) ==> Settled(r, CustomerCronJob(a, a.spec.crons[k]))
    {
      var w := CustomerCronJob(a, a.spec.crons[k]);
      if crons[u].name == w.name {
        FindUnique(crons, u);
        assert w.labels[SITE_ID] == a.Id();
      } else {
        SettledByLookup(crons, r, w);
      }
    }
    CountUnsettledAtMost(crons, r, a, a.spec.crons);
  }

  lemma EnsureKeepsOther(crons: seq<CronJob>, a: Site, b: Site, i: nat)
    requires UniqueCrons(crons) && i < |b.spec.crons| && a.Id() != b.Id() && !SharesName(a, b)
    ensures CronWork(Ensured(crons, CustomerCronJob(b, b.spec.crons[i])), a) <= CronWork(crons, a)
  {
    var w := CustomerCronJob(b, b.spec.crons[i]);
    var r, j := Ensured(crons, w), Find(crons, w.name);
    EnsuredMembers(crons, w);
    assert w.labels[SITE_ID] == b.Id() && Named(b.spec.crons, w.name);
    if j < |crons| {
      CountUnwantedUpdated(crons, j, SyncedCron(crons[j], w), a.Id(), a.spec.crons);
    } else {
      CountUnwantedAppended(crons, w, a.Id(), a.spec.crons);
    }
    forall k | 0 <= k < |a.spec.crons|
      ensures Settled(crons, CustomerCronJob(a, a.spec.crons[k])) ==> Settled(r, CustomerCronJob(a, a.spec.crons[k]))
    {
      SettledByLookup(crons, r, CustomerCronJob(a, a.spec.crons[k]));
    }
    CountUnsettledAtMost(crons, r, a, a.spec.crons);
  }

  /** Without a shared name, a pass of one site makes no work for the other. */
  lemma PassKeepsOther(crons: seq<CronJob>, a: Site, b: Site)
    requires UniqueCrons(crons) && a.Id() != b.Id() && !SharesName(a, b)
    ensures CronWork(CronPass(crons, b), a) <= CronWork(crons, a)
  {
    var u := FirstUnwanted(crons, b.Id(), b.spec.crons);
    var i := FirstUnsettled(crons, b, b.spec.crons);
    if u < |crons| {
      DeleteKeepsOther(crons, a, b, u);
    } else if i < |b.spec.crons| {
      EnsureKeepsOther(crons, a, b, i);
    }
  }

  /** Passes of two sites in any order: `true` stands for a pass of `a`. */
  function Interleaved(crons: seq<CronJob>, a: Site, b: Site, order: seq<bool>): seq<CronJob>
    decreases |order|
  {
    if order == [] then crons else Interleaved(CronPass(crons, if order[0] then a else b), a, b, order[1..])
  }

  function Turns(order: seq<bool>, who: bool): nat
    decreases |order|
  {
    if order == [] then 0 else (if order[0] == who then 1 else 0) + Turns(order[1..], who)
  }

  predicate BothSettled(crons: seq<CronJob>, a: Site, b: Site) {
    CronsSettled(crons, a) && CronsSettled(crons, b)
  }

  lemma SharesNameBothWays(a: Site, b: Site)
    requires SharesName(b, a)
    ensures SharesName(a, b)
  {
    var i :| 0 <= i < |b.spec.crons| && Named(a.spec.crons, b.spec.crons[i].name);
    var j :| 0 <= j < |a.spec.crons| && a.spec.crons[j].name == b.spec.crons[i].name;
    assert Named(b.spec.crons, a.spec.crons[j].name);
  }

  /** Two sites without a shared name settle in every interleaving in which each gets as many passes
      as it has work. */
  lemma {:induction false} InterleavedSettle(crons: seq<CronJob>, a: Site, b: Site, order: seq<bool>)
    requires UniqueCrons(crons) && Consistent(a) && Consistent(b) && a.Id() != b.Id() && !SharesName(a, b)
    requires Turns(order, true) >= CronWork(crons, a) && Turns(order, false) >= CronWork(crons, b)
    ensures BothSettled(Interleaved(crons, a, b, order), a, b)
    decreases |order|
  {
    CronPassProgress(crons, a);
    CronPassProgress(crons, b);
    if order != [] {
      if SharesName(b, a) {
        SharesNameBothWays(a, b);
      }
      PassKeepsOther(crons, a, b);
      PassKeepsOther(crons, b, a);
      InterleavedSettle(CronPass(crons, if order[0] then a else b), a, b, order[1..]);
    }
  }

  lemma {:induction false} TurnsOf(p: nat, q: nat) returns (order: seq<bool>)
    ensures Turns(order, true) == p && Turns(order, false) == q
    decreases p + q
  {
    if p + q == 0 {
      order := [];
    } else {
      var rest := TurnsOf(if p > 0 then p - 1 else 0, if p > 0 then q else q - 1);
      order := [p > 0] + rest;
      assert order[1..] == rest;
    }
  }

  ghost predicate RestTogetherAfter(crons: seq<CronJob>, a: Site, b: Site, order: seq<bool>) {
    BothSettled(Interleaved(crons, a, b, order), a, b)
  }

  /** Two sites can come to rest together exactly when entries of one name agree within each of them
      and no name is used by both; with a shared name each pass of one undoes the other's. */
  lemma RestTogetherIff(crons: seq<CronJob>, a: Site, b: Site)
    requires UniqueCrons(crons) && a.Id() != b.Id()
    ensures (exists order :: RestTogetherAfter(crons, a, b, order)) <==>
            Consistent(a) && Consistent(b) && !SharesName(a, b)
  {
    if order :| RestTogetherAfter(crons, a, b, order) {
      var r := Interleaved(crons, a, b, order);
      SettledImpliesConsistent(r, a);
      SettledImpliesConsistent(r, b);
      SharedNamesNeverRest(r, a, b);
    }
    if Consistent(a) && Consistent(b) && !SharesName(a, b) {
      var order := TurnsOf(CronWork(crons, a), CronWork(crons, b));
      InterleavedSettle(crons, a, b, order);
      assert RestTogetherAfter(crons, a, b, order);
    }
  }
}
