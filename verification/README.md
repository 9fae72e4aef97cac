# A verified model of the Drupal operator's reconcile protocols

The operator keeps three kinds of custom resources in step with a Kubernetes cluster: applications,
environments and sites. A site needs a password Secret, an entry in two shared objects named
`domain-map`, a MySQL database and user, a ProxySQL row, CronJobs, Jobs and an Ingress; an
environment needs volumes, ConfigMaps, a Rollout, a ProxySQL Deployment, Services and an autoscaler.
Each controller works by passes: read an object, look at one need after the other, write at most one
or two things, and ask for another pass. Passes can fail anywhere, overlap with other workers and
read from a stale cache.

This project models these protocols in Dafny and proves what they keep.

## How it is built

* `SharedObject`, `Cluster`: the store. A shared object is a log of its states with a cache that lags
  behind; an update carries the version that was read. The MySQL and ProxySQL tables are maps.
* `SiteWorker`, `SiteMachine`: one reconcile pass of a Site as a sequence of stages, each at most one
  call to the API server or a database, and any number of such passes interleaved with users, third
  parties, the environment controller and failures between any two stages. A run is any finite
  sequence of events.
* `SiteSafety`, `Credentials`, `SiteDeletion`, `SiteStuck`, `SiteInheritance`: invariants of all runs,
  what becomes of deletion, and runs that show where the invariants end.
* `SitePass`, `SiteConvergence`, `SiteProgress`: whole passes without interference, which are runs of
  the same machine, and their convergence.
* `SiteReconciler`, `EnvironmentReconciler`, `Application`, and the classes in `Finalizers`,
  `LabelSync`, `Rollout` and `DomainMapData`: the code as it is written, with fields, loops and
  updates in place. `SiteReconciler.Reconcile` is proved to be the pass of the machine, and
  `EnvironmentReconciler.Reconcile` the pass of `Environment`.
* `Environment`, `Volumes`, `LabelFlow`, `Crons`: the environment's chain of needs, its volumes, the
  flow of labels through three controllers, and the CronJob synchroniser.
* `Rollout`, `PhpMemory`, `DomainMapData`, `Finalizers`, `LabelSync`, `SiteTypes`: the algorithms.

## What the proofs found

* Retrying does not help a deletion. If a pass stops after the password Secret has lost its finalizer
  (pkg/controller/site/site_controller.go:162-168), or if the Secret never existed
  (`SiteStuck.StuckIsReachable`), no later pass releases the Site (`SiteStuck.StuckForever`), except
  through one race: somebody deletes the Secret, which nothing holds, just after a retry has read it
  (`SiteStuck.EventStuckIff`, `SiteStuck.VanishedSecretReleases`). A pass completes the deletion
  exactly if the Secret is held (`SiteDeletion.DeletionCompletesIff`).
* Removing the Site finalizer does not stop the pass when there is none: the code then goes on to
  provision a Site that is being deleted. In runs this takes a Secret that vanishes under a worker
  whose Site has no finalizer (`SiteStuck.VanishedSecretFallsThroughIff`); all runs without that event
  are safe (`SiteSafety.DeletionNeverProvisions`).
* A Site that is created again before the garbage collector has taken its predecessor's password
  Secret uses that Secret without holding it. The Secret can go at any time, and the database user
  keeps a password that is recorded nowhere (`SiteInheritance.InheritedSecretIsLost`).
* An existing Ingress without annotations makes every pass crash at a nil map
  (pkg/controller/site/site_controller.go:507-513, `SiteProgress.ReturnsInTheEndIff`).
* An application that bears a `git-ref` label other than its environment's, or an empty Id label of
  the level below, is overwritten and copied again forever (`LabelFlow.SettlesIff`,
  `Environment.RestsIff`); one that bears another environment's Id changes an Id that is in use
  (`LabelFlow.EnvIdChangesIff`).
* Sanitized database names collide, and then deleting one site drops the other's database
  (`SiteDeletion.DeletionDropsOtherIff`). The safety results assume distinct database names.
* In `reconcileDatabase` the deferred `Close` calls replace an earlier error
  (pkg/controller/site/site_controller.go:282-303), so a failed statement goes on to the CronJobs as
  if it had succeeded. The model does the same, and no result says that a CronJob, Job or Ingress
  implies a database.
* ProxySQL refuses a second row and the refusal is ignored, so a row that has outlived its password
  Secret stays wrong (`Credentials.AddProxyUserAgreesIff`).
* `RemoveFinalizer` is right exactly on lists without neighbouring duplicates and slices out of range
  on `[F, F]`; the two rollout loops differ on repeated names whose first and last container differ;
  CronJob names shared by two different entries or by two sites never settle, all others do
  (`Crons.RestTogetherIff`); a `null` payload crashes a worker; the status of an application without
  environments is written again by every pass; the memory limit wraps at 2^31 MiB, while the request
  is always exactly a third of the limit.

## Model

| member | source | states |
|---|---|---|
| `SiteSafety.FinalizerSafety` | pkg/controller/site/site_controller.go:150-176 | After every run of any number of workers, with passes cut short anywhere, stale reads of the shared objects and users, third parties and the environment controller in between: a site whose database, database user or held password Secret exists is still an object with the cleanup finalizer. |
| `SiteSafety.EntrySafety` | pkg/controller/site/site_controller.go:401-458 | After every run, each entry of the shared ConfigMap or Secret belongs to a Site that exists, carries the entry's Id and the cleanup finalizer. |
| `SiteSafety.DeletionNeverProvisions` | pkg/controller/site/site_controller.go:151-203 | In every run a pass that began on a Site marked for deletion never gets past the deletion block, and a pass at a provisioning stage serves a Site that has the finalizer. |
| `SiteSafety.NoLostUpdate` | pkg/controller/site/site_controller.go:401-458 | In every reachable state a step of one site's worker leaves all of every other site as it is: Site, password Secret, database, user, ProxySQL row and both shared entries, however old its reads are. |
| `SiteSafety.ForgottenEntriesAreGone` | pkg/controller/site/site_controller.go:524-580 | Once a deletion pass is past the shared Secret and ConfigMap, the site's entries are absent from the live objects, also when the pass found the object missing. |
| `SiteSafety.EventKeepsInv` | pkg/controller/site/site_controller.go:114-244 | Every event of the machine, whoever acts, keeps the whole invariant. |
| `SiteSafety.AdvanceHolds` | pkg/controller/site/site_controller.go:114-244 | Each of the 26 stages of a pass keeps the invariant of its own site and touches nothing that belongs to another. |
| `SiteSafety.RunKeepsInv` | pkg/controller/site/site_controller.go:114-244 | The invariant holds after any finite sequence of events. |
| `SharedObject.Shared.Write` | pkg/controller/site/site_controller.go:420-421 | An update with the version of a snapshot: a successful one makes exactly the new value live, and the cache does not move. |
| `SharedObject.WriteIsFresh` | pkg/controller/site/site_controller.go:420-421 | A write that is accepted was computed from the live value, however old the read behind it; the object has existed since. |
| `SiteWorker.Advance` | pkg/controller/site/site_controller.go:114-244 | A stage only moves the pass forward, with the same copy of the Site, and keeps the shared objects well-formed. |
| `SitePass.PassIsRun` | pkg/controller/site/site_controller.go:114-244 | A whole pass with current reads is a run of the machine, so all that holds of runs holds of passes. |
| `SiteDeletion.DeletionCompletesIff` | pkg/controller/site/site_controller.go:150-169 | A failure-free deletion pass takes the finalizer off the Site if and only if the password Secret still carries its own. |
| `SiteDeletion.DeletedOutcome` | pkg/controller/site/site_controller.go:524-669 | All that such a pass leaves behind: both shared entries gone in any case and nothing else of the maps; database and user gone if the Secret exists, and the ProxySQL row too where ProxySQL answers; if the Secret is held, Site and Secret lose their finalizer and nothing else, and go if nothing else holds them; otherwise they are untouched. |
| `SiteDeletion.PassDeletes` | pkg/controller/site/site_controller.go:150-169 | A pass over a protected Site that is being deleted, stage by stage, equals that outcome. |
| `SiteStuck.StuckForever` | pkg/controller/site/site_controller.go:584-668 | Once the Secret has lost its finalizer and the Site has not, no continuation of the run, of whatever length, releases the Site, as long as the Secret does not vanish under a worker that has read it. |
| `SiteStuck.EventStuckIff` | pkg/controller/site/site_controller.go:584-669 | Event by event: that state ends if and only if the Secret, held by nothing, vanishes while a worker is between reading and releasing it. |
| `SiteStuck.VanishedSecretReleases` | pkg/controller/site/site_controller.go:650-669 | After that one event the same pass can go on to release the Site, if its copy of the Site is the stored one. |
| `SiteStuck.StuckIsReachable` | pkg/controller/site/site_controller.go:150-169 | From the start: a Site that is deleted after the pass that adds the finalizer, before its password Secret was made, is stuck. |
| `SiteStuck.FailureBetweenReleasesStrands` | pkg/controller/site/site_controller.go:162-168 | A pass cut short between the two releases leads to exactly that state. |
| `SiteStuck.VanishedSecretFallsThroughIff` | pkg/controller/site/site_controller.go:162-176 | In a reachable state, if the Secret vanishes under a worker that is about to release it, two more steps take the pass past the deletion block, to serve a Site that is being deleted, if and only if that Site has no cleanup finalizer. |
| `SiteDeletion.DeletionDropsOtherIff` | pkg/controller/site/site_controller.go:599-610 | Deleting one site drops another's database exactly if the two names sanitize to the same text. |
| `SiteDeletion.DatabaseNamesCollide` | pkg/apis/fnresources/v1alpha1/site_types.go:124-142 | Inserting a dash anywhere into a name gives a different Site with the same database. |
| `Credentials.CredentialAgreement` | pkg/controller/site/site_controller.go:310-350 | In every run in which no new Site takes over a lingering password Secret: MySQL's password, once set, and every shared entry are those of the site's password Secret, which is held while either exists; so is ProxySQL's, unless a row has outlived an earlier Secret and has not been dropped since. |
| `Credentials.AdvanceAgrees` | pkg/controller/site/site_controller.go:277-458 | Each stage keeps that agreement, including what the worker itself carries between two calls. |
| `Credentials.EventKeepsCredInv` | pkg/controller/site/site_controller.go:366-399 | Every tidy event keeps it for all sites. |
| `Credentials.ReleaseOrphansIff` | pkg/controller/site/site_controller.go:613-669 | Releasing the Secret leaves a wrong row behind exactly if that removes the Secret while the ProxySQL row stands (service absent, or error 1045). |
| `Credentials.AddProxyUserAgreesIff` | pkg/controller/site/site_controller.go:345-350 | After the insertion ProxySQL has the current password if and only if there was no row or one with that password. |
| `Credentials.CreationAgreesIff` | pkg/controller/site/site_controller.go:366-399 | From any state in which the agreement holds, creating a Site keeps it if and only if no password Secret of that name is left. |
| `SiteInheritance.InheritedSecretIsLost` | pkg/controller/site/site_controller.go:366-399 | A run from the start, for every initial state and name: created, served, deleted, created again over the lingering Secret, provisioned; then the Secret is collected, and the database user has a password that is recorded nowhere. |
| `SiteProgress.PassesConverge` | pkg/controller/site/site_controller.go:114-244 | With stable surroundings, readable commands and free job names, as many passes as the budget (early writes + CronJobs to change + job annotations) bring the Site to rest, in whatever order jobs are started. |
| `SiteProgress.PassProgress` | pkg/controller/site/site_controller.go:114-244 | Every pass that finds something to do asks for another one, lowers the budget and keeps the conditions for the next. |
| `SiteProgress.NothingMoreChanges` | pkg/controller/site/site_controller.go:114-244 | After a pass that returns, a further pass returns too and leaves the whole cluster as it is. |
| `SiteProgress.RestMeaning` | pkg/controller/site/site_controller.go:178-241 | What holds then, by content: finalizer, Id, owner and every prefixed label of the environment; a domain map of exactly the listed domains, each with the name of a database that exists with ProxySQL; credentials with the host, port, name, user and password; database, user and row; the CronJobs as specified and no job pending; an Ingress rule per domain to `drupal` on port 80, TLS exactly if asked for, and the two annotations with their defaults. |
| `SiteProgress.ReturnsInTheEndIff` | pkg/controller/site/site_controller.go:460-521 | After as many passes as the budget says, passes return if and only if the Site started without an Ingress or with one that has annotations; otherwise every further pass crashes at the nil map. |
| `SiteConvergence.PassServes` | pkg/controller/site/site_controller.go:114-244 | A pass makes the one change that is due, and returns exactly if nothing was due and the Ingress does not make it crash. |
| `SiteProgress.EarlyProgress` | pkg/controller/site/site_controller.go:130-222 | Each of the six early writes meets its need and keeps the earlier ones. |
| `SiteProgress.JobsStillFit` | pkg/controller/site/jobs.go:122-146 | Starting one job leaves the other job's name free. |
| `SiteReconciler.SiteReconciler.Reconcile` | pkg/controller/site/site_controller.go:114-244 | The imperative pass over the object's fields, with the informer caches as they are, ends in the cluster that the step machine reaches, and returns exactly when that does. |
| `SiteReconciler.SiteReconciler.AddFinalizer` | pkg/controller/site/site_controller.go:247-252 | Follows the machine from the finalizer stage; goes on exactly if the finalizer is there, and otherwise stores the Site with it added. |
| `SiteReconciler.SiteReconciler.RemoveFinalizer` | pkg/controller/site/site_controller.go:254-259 | Follows the machine from the release; falls through exactly if there was no finalizer. |
| `SiteReconciler.SiteReconciler.LinkToEnvironment` | pkg/controller/site/site_controller.go:178-210 | Follows the machine from the link; goes on exactly if the environment and its application exist and the Site is linked to it; otherwise another controller makes it fail without a write, or the labels and the owner are stored. |
| `SiteReconciler.SiteReconciler.ReconcileDbPwdSecret` | pkg/controller/site/site_controller.go:366-399 | Follows the machine; goes on exactly if the Secret exists, and otherwise creates one with its finalizer and a fresh password. |
| `SiteReconciler.SiteReconciler.ReconcileDomainMap` | pkg/controller/site/site_controller.go:401-426 | Follows the machine; asks for another pass only with the site's entry live, which maps exactly the listed domains to the database name. |
| `SiteReconciler.SiteReconciler.ReconcileDomainDbMapSecret` | pkg/controller/site/site_controller.go:428-458 | The same for the Secret, with the password read first: the live entry has the ProxySQL host and port, the database name twice, and that password. |
| `SiteReconciler.SiteReconciler.ReconcileDatabase` | pkg/controller/site/site_controller.go:277-363 | With the Secret, ProxySQL and working SQL: the database is there, the user has the password, and a row is added unless there is one; otherwise nothing changes; the pass goes on either way. |
| `SiteReconciler.SiteReconciler.FinalizeConfigMap` | pkg/controller/site/site_controller.go:524-551 | Follows the machine; goes on from an existing object only with the entry gone. |
| `SiteReconciler.SiteReconciler.FinalizeDomainDbMapSecret` | pkg/controller/site/site_controller.go:554-580 | The same for the Secret. |
| `SiteReconciler.SiteReconciler.FinalizeDatabase` | pkg/controller/site/site_controller.go:584-647 | Fails without a change if the password Secret is absent; otherwise exactly database and user and, where ProxySQL answers, the row are removed. |
| `SiteReconciler.SiteReconciler.FinalizeDbPwdSecret` | pkg/controller/site/site_controller.go:650-669 | Fails exactly on a Secret that has lost the finalizer; otherwise the Secret loses it and nothing else, and goes if it was marked and has no other. |
| `SiteReconciler.SiteReconciler.GetDB` | pkg/controller/site/db.go:15-30 | Host `proxysql`, port 6033, the sanitized site name as database and user, and the Secret's password; an error exactly if the Secret is absent. |
| `SiteReconciler.SiteReconciler.UpdateIngress` | pkg/controller/site/site_controller.go:460-521 | Crashes exactly on an existing Ingress without annotations; otherwise the Ingress has the wanted rules, TLS section and annotations, keeps its labels and foreign annotations (a new one has the Site's labels), and is written exactly if something differs. |
| `LabelSync.EnsureAnnotations` | pkg/controller/site/site_controller.go:507-513 | The loop over the wanted annotations, in any order, is a map update that reports a change exactly if there was one; it crashes exactly if the object has no annotations and one is wanted. |
| `SiteReconciler.SiteReconciler.DeleteUnwantedCrons` | pkg/controller/site/jobs.go:191-214 | Deletes the first CronJob with the site's label that the specification does not name, or nothing. |
| `SiteReconciler.SiteReconciler.CreateOrUpdateCron` | pkg/controller/site/jobs.go:221-246 | Field by field, the CronJob of the name becomes the wanted one apart from its template; reports a change exactly if there was one. |
| `SiteReconciler.SiteReconciler.ReconcileCronJobs` | pkg/controller/site/jobs.go:216-259 | One change per pass; none exactly if all CronJobs are settled. |
| `SiteReconciler.SiteReconciler.GetNextJobBuilder` | pkg/controller/site/jobs.go:261-277 | The first of the two job labels in the order in which the annotations are visited; none exactly if neither is there. |
| `SiteReconciler.SiteReconciler.ReconcileJobs` | pkg/controller/site/jobs.go:279-308 | Starts one job, named after its kind and the digest of its command, and takes its annotation away; an unreadable command or an existing job changes nothing. |
| `Crons.CronPassProgress` | pkg/controller/site/jobs.go:191-259 | A pass takes work away (unwanted + missing or outdated CronJobs), or there is none and it changes nothing; names stay distinct. |
| `Crons.CronPassIsLocal` | pkg/controller/site/jobs.go:173-259 | No CronJob of another site is added, changed or removed, as long as no name is shared. |
| `Crons.CronsConverge` | pkg/controller/site/jobs.go:191-259 | With no more passes than there is work, exactly the wanted CronJobs bear the site's label, each up to date, and stay so. |
| `Crons.SettledMeaning` | pkg/controller/site/jobs.go:82-119 | At rest every CronJob with the site's label is named by the specification, and each entry has one of its name with the entry's schedule, command, suspension and policy (`Forbid` by default), a deadline of 900 seconds, and exactly the Site's three Id labels and the type `cron`. |
| `Crons.CreatedMeaning` | pkg/controller/site/jobs.go:82-119 | A CronJob that is created has all that and the template of the Site's environment. |
| `Crons.RestIffConsistent` | pkg/controller/site/jobs.go:216-259 | Passes come to rest if and only if entries of one name want the same CronJob. |
| `Crons.RestTogetherIff` | pkg/controller/site/jobs.go:191-259 | Two sites come to rest together in some interleaving of their passes if and only if entries of one name agree within each of them and no name is used by both. |
| `Crons.InterleavedSettle` | pkg/controller/site/jobs.go:191-259 | Two such sites settle in every interleaving that gives each as many passes as it has work. |
| `Crons.PassKeepsOther` | pkg/controller/site/jobs.go:191-259 | Without a shared name a pass of one site, deleting or writing, makes no work for the other. |
| `Crons.SharedNamesNeverRest` | pkg/controller/site/jobs.go:216-259 | CronJobs at rest for two sites mean that the two share no name. |
| `Crons.DeleteStep` | pkg/controller/site/jobs.go:205-211 | Deleting an unwanted CronJob removes it alone and one unit of work. |
| `Crons.EnsuredMembers` | pkg/controller/site/jobs.go:224-246 | Creating or updating one entry settles it, keeps the template of an existing CronJob, and leaves every CronJob of another name. |
| `DomainMapData.MapData.Parse` | pkg/controller/site/domainmap.go:20-22 | Bad syntax leaves the map, `null` makes it nil, and what is decoded of an object is merged in, also when values of a wrong type make it an error. |
| `DomainMapData.MapData.EnsurePresence` | pkg/controller/site/domainmap.go:36-45 | Reports whether the entry was there; a nil map cannot be written. |
| `DomainMapData.EnsureEntry` | pkg/controller/site/site_controller.go:412-422 | The caller's read, change and write, with the parse error ignored, on any stored text. |
| `DomainMapData.RemoveEntry` | pkg/controller/site/site_controller.go:535-543 | The same for removing an entry. |
| `DomainMapData.ReadLosesNothing` | pkg/controller/site/domainmap.go:20-54 | On data that is missing, empty or was written from a map that is not nil, the ignored error loses no entry and never yields a nil map. |
| `DomainMapData.EnsureSetsOneEntry` | pkg/controller/site/domainmap.go:36-74 | One entry is set, all others are kept, and doing it again after writing and reading reports no change. |
| `DomainMapData.RemoveTakesOneEntry` | pkg/controller/site/site_controller.go:535-543 | One entry is taken away, all others are kept. |
| `DomainMapData.HistoryRefines` | pkg/controller/site/domainmap.go:12-74 | In every history of the object the texts behave like the maps they stand for. |
| `DomainMapData.CreatedIsWellWritten` | pkg/controller/drupalenvironment/drupalenvironment_controller.go:209-252 | The empty data that the environment controller creates is a good start of such a history. |
| `DomainMapData.EnsureOnAnyText` | pkg/controller/site/domainmap.go:20-45 | On foreign data setting an entry crashes exactly if the text is `null`; otherwise the written text holds the entry and exactly what could be decoded, whatever the error. |
| `DomainMapData.OtherKeys` | pkg/controller/site/site_controller.go:414-446 | The ConfigMap loses every other key with a write, the Secret keeps them. |
| `Finalizers.Resource.HasFinalizer` | pkg/common/finalizer.go:8-16 | True exactly for a member of the list. |
| `Finalizers.Resource.AddFinalizer` | pkg/common/finalizer.go:19-33 | Appends an absent finalizer, with and without spare capacity. |
| `Finalizers.Resource.RemoveFinalizer` | pkg/common/finalizer.go:36-52 | The shifting loop on every list: when it slices out of range, and otherwise exactly which elements remain. |
| `Finalizers.RemovalIsCompleteIff` | pkg/common/finalizer.go:36-52 | The loop removes every occurrence, in order, if and only if no two are neighbours. |
| `Finalizers.UniqueListsAreSafe` | pkg/common/finalizer.go:19-52 | A duplicate-free list never overruns, loses exactly the finalizer, and stays duplicate-free under both operations. |
| `Finalizers.AddThenRemove` | pkg/common/finalizer.go:19-52 | Removing what was added to a list without it restores the list. |
| `Finalizers.DuplicatesBreakRemoval` | pkg/common/finalizer.go:36-52 | `[F, F]` overruns and `[F, F, x]` keeps an `F`. |
| `LabelSync.OwnedResource.IsControlledBy` | pkg/common/owner.go:14-21 | True exactly if a controller reference has the owner's uid. |
| `LabelSync.OwnedResource.SyncLabelsWithPrefix` | pkg/common/owner.go:24-39 | In any order of the source labels: the smallest change that brings the labels in line, reported exactly if there was one. |
| `LabelSync.OwnedResource.LinkToOwner` | pkg/common/owner.go:41-54 | Labels in line and the owner in control, or refused exactly if another owner controls the object and this one does not; references of other owners are kept in their order; reports a change exactly if there was one. |
| `LabelSync.SyncedLabelsMeaning` | pkg/common/owner.go:24-39 | The sync brings every prefixed label in line, keeps all others, and is idempotent. |
| `LabelFlow.IdsNeverChange` | pkg/common/owner.go:24-54 | In any interleaving of application, environment and site passes from a clean start no object's Id changes once set. |
| `LabelFlow.WritesAreBounded` | pkg/controller/drupalenvironment/drupalenvironment_controller.go:117-207 | Without a conflict and without an empty site Id on an environment, the number of label writes of any run is bounded by a weight that depends on the start alone. |
| `LabelFlow.WriteProgress` | pkg/controller/drupalapplication/drupalapplication_controller.go:115-138 | Every label write lowers that weight, although a write above can put everything below out of step. |
| `LabelFlow.QuietMeansNamed` | pkg/controller/drupalapplication/drupalapplication_controller.go:115-138 | At rest every application, environment and site has its Id label, and applications and environments the hash of their git repository or reference. |
| `LabelFlow.QuietMeansPropagated` | pkg/controller/site/site_controller.go:263-275 | At rest every prefixed application label is on its environments and every prefixed environment label on their sites. |
| `LabelFlow.QuietMeansTransitive` | pkg/common/owner.go:24-39 | So a site bears its application's labels. |
| `LabelFlow.SettlesIff` | pkg/controller/drupalenvironment/drupalenvironment_controller.go:117-207 | Some run brings all labels to rest if and only if no environment links to an application that bears the hash of another git reference or an empty environment Id, and no site is handed down an empty site Id. |
| `LabelFlow.ConflictNeverRests` | pkg/controller/drupalenvironment/drupalenvironment_controller.go:165-207 | Such a conflict is there after every run, and nothing is ever at rest with it. |
| `LabelFlow.ConflictsStay` | pkg/common/owner.go:24-54 | No pass makes a conflict and none resolves one, environment by environment and site by site. |
| `LabelFlow.EnvIdChangesIff` | pkg/common/owner.go:24-54 | Some run changes the Id of an environment if and only if it links to an application that bears a different one. |
| `LabelFlow.SiteIdChangesIff` | pkg/common/owner.go:24-54 | Some run changes the Id of a site if and only if the environment it links to bears a different one or links to an application that does. |
| `Environment.RestsIff` | pkg/controller/drupalenvironment/drupalenvironment_controller.go:101-392 | From any environment that is not being deleted, passes come to rest if and only if the application exists and hands down neither an empty Id nor the hash of another git reference, nobody else controls the environment, and an existing ProxySQL Deployment has a container. |
| `Environment.DeletionEnds` | pkg/controller/drupalenvironment/drupalenvironment_controller.go:134-153 | A pass over an environment with an Id that is being deleted provisions nothing; after two of them its volume is marked and its finalizer gone, and the next one returns. |
| `Environment.PassesConverge` | pkg/controller/drupalenvironment/drupalenvironment_controller.go:101-392 | At most one pass more than there are open needs brings it there. |
| `Environment.PassProgress` | pkg/controller/drupalenvironment/drupalenvironment_controller.go:101-392 | A pass that does not return has met the first open need and kept all before it, and one that returns has met all. |
| `Environment.FixKeeps` | pkg/controller/drupalenvironment/drupalenvironment_controller.go:117-392 | No stage undoes an earlier one, for all 18 stages. |
| `Environment.FixMeets` | pkg/controller/drupalenvironment/drupalenvironment_controller.go:117-392 | Every stage's write brings about what the stage looks for. |
| `Environment.RestMeaning` | pkg/controller/drupalenvironment/drupalenvironment_controller.go:117-392 | At rest, by content: Id, finalizer, git label, owner and application labels; both shared maps; the three ConfigMaps with the data given under their names; volume handle and claim; the Rollout's labels, strategy and containers; ProxySQL's size, volumes and first container, its Service's ports and selector, its claim and servers; the autoscaler. |
| `Environment.FixUpdates` | pkg/controller/drupalenvironment/drupalenvironment_controller.go:117-392 | What each write sets, by content, and what it keeps: other labels, finalizers, ConfigMaps and volumes, a volume's deletion mark, the other containers and fields of the Deployment, Service and Rollout. |
| `Environment.RestIsFixed` | pkg/controller/drupalenvironment/drupalenvironment_controller.go:101-392 | At rest a pass writes nothing and returns. |
| `Environment.RolloutSettles` | pkg/controller/drupalenvironment/drupal.go:359-392 | A created Rollout is already in sync, and an updated one stays so. |
| `EnvironmentReconciler.EnvironmentReconciler.Reconcile` | pkg/controller/drupalenvironment/drupalenvironment_controller.go:101-392 | The imperative chain of methods, with the deletion branch behind the Id, ends in the scene that the pass on values reaches, and returns exactly when that does. |
| `EnvironmentReconciler.EnvironmentReconciler.ReconcileConfigMap` | pkg/controller/drupalenvironment/drupalenvironment_controller.go:410-455 | Creates and asks for another pass, or overwrites different data and goes on. |
| `EnvironmentReconciler.EnvironmentReconciler.LinkToApplication` | pkg/controller/drupalenvironment/drupalenvironment_controller.go:183-207 | Links, or stops without a write at a missing application or foreign controller. |
| `EnvironmentReconciler.EnvironmentReconciler.EnsureDomainMaps` | pkg/controller/drupalenvironment/drupalenvironment_controller.go:209-252 | Each of the two shared objects is created if absent and never overwritten. |
| `EnvironmentReconciler.EnvironmentReconciler.ReconcilePV` | pkg/controller/drupalenvironment/drupal.go:478-516 | Creates the volume or corrects its handle, without reviving one that is being deleted. |
| `EnvironmentReconciler.EnvironmentReconciler.ReconcileDrupalRollout` | pkg/controller/drupalenvironment/drupal.go:359-392 | Creates the Rollout or synchronises it, and stops the pass exactly if it changed; afterwards its labels, strategy and named containers are the wanted ones. |
| `EnvironmentReconciler.EnvironmentReconciler.ReconcileProxySQL` | pkg/controller/drupalenvironment/proxysql.go:60-97 | Creates the Deployment, or brings its size, volumes and first container's image, resources and mounts in line and keeps all else; stuck without containers. |
| `EnvironmentReconciler.EnvironmentReconciler.Finalize` | pkg/controller/drupalenvironment/drupalenvironment_controller.go:134-153 | Marks the volume first, releases the finalizer in a later pass. |
| `EnvironmentReconciler.EnvironmentReconciler.FinalizePV` | pkg/controller/drupalenvironment/drupal.go:518-535 | Marks a volume that is there and not marked, and asks for another pass exactly then. |
| `Volumes.VolumeSafety` | pkg/controller/drupalenvironment/drupalenvironment_controller.go:134-163 | In every run with static provisioning, a volume not marked for deletion belongs to an environment that exists with the cleanup finalizer. |
| `Volumes.WalkVolumes` | pkg/controller/drupalenvironment/drupal.go:478-516 | A pass touches at most the volume of its own Id, and only behind Id and finalizer, both of which it keeps. |
| `Volumes.EventKeepsInv` | pkg/controller/drupalenvironment/drupalenvironment_controller.go:101-163 | Every event keeps the invariant behind it. |
| `Volumes.DeletionTakesTwoPasses` | pkg/controller/drupalenvironment/drupalenvironment_controller.go:117-153 | The first pass marks the volume and keeps the environment, the next one releases it; without an Id a pass before them assigns one and changes nothing else of the volumes. |
| `Rollout.LiveContainers.SyncInitContainers` | pkg/controller/drupalenvironment/drupal.go:404-416 | The nested loop without `break`, in place, equals applying every desired container of the name in turn. |
| `Rollout.LiveContainers.SyncContainers` | pkg/controller/drupalenvironment/drupal.go:420-437 | The nested loop with `break`, in place, equals applying the first. |
| `Rollout.SyncIsIdempotent` | pkg/controller/drupalenvironment/drupal.go:399-449 | Synchronising twice is synchronising once, for every Rollout and specification, also with repeated names. |
| `Rollout.SyncKeepsShape` | pkg/controller/drupalenvironment/drupal.go:399-449 | Number, order and names of the containers and every field that is not synchronised are kept. |
| `Rollout.SyncFirstIsLookup` | pkg/controller/drupalenvironment/drupal.go:420-437 | The loop with `break` is a lookup of the name. |
| `Rollout.SyncAllIsLookup` | pkg/controller/drupalenvironment/drupal.go:404-416 | The loop without `break` is the same lookup when names are distinct. |
| `Rollout.LoopsAgreeIff` | pkg/controller/drupalenvironment/drupal.go:404-437 | For every container and specification, the loop without `break` and the loop with it take the same image and pull policy if and only if the last and the first desired container of the name have the same. |
| `Rollout.SyncDrupalRollout` | pkg/controller/drupalenvironment/drupal.go:399-437 | The strategy becomes the desired one, containers without a desired namesake come back unchanged, and the result is the specified sync. |
| `Rollout.SyncedMatchesSpec` | pkg/controller/drupalenvironment/drupal.go:399-449 | The strategy is the desired one. With distinct names every matched container has the desired image and pull policy and, for main containers, probes; a resource list stays as written exactly if its CPU and memory amounts are right, and is replaced as a whole otherwise. |
| `PhpMemory.LimitIsExactIff` | pkg/controller/drupalenvironment/drupal.go:128-129 | The limit is (procs * memory per proc + opcache + APC) * 2^20 bytes if and only if that number of mebibytes fits into 32 bits. |
| `PhpMemory.RequestIsThirdOfLimit` | pkg/controller/drupalenvironment/drupal.go:128-137 | For every specification the float computation yields exactly a third of the limit, truncated; so it is a third of that total whenever the total fits. |
| `PhpMemory.ThirdIsNearest` | pkg/controller/drupalenvironment/drupal.go:23-23 | The constant used for 1.0/3.0 is the double nearest to one third. |
| `PhpMemory.LimitWrapsOnce` | pkg/controller/drupalenvironment/drupal.go:128-129 | The limit is a whole number of mebibytes in the 32-bit range that differs from the exact total by a multiple of 2^32. |
| `SiteTypes.SanitizeCleans` | pkg/apis/fnresources/v1alpha1/site_types.go:124-130 | Exactly the four characters are gone; clean names stay as they are. |
| `SiteTypes.SanitizeCollides` | pkg/apis/fnresources/v1alpha1/site_types.go:124-130 | Inserting one of the four characters anywhere does not change the result. |
| `SiteTypes.BuildDomainMap` | pkg/apis/fnresources/v1alpha1/site_types.go:144-150 | The loop maps exactly the listed domains, each to the sanitized site name. |
| `SiteTypes.BuildIngressRules` | pkg/apis/fnresources/v1alpha1/site_types.go:152-176 | One rule per domain, in order, to the service `drupal` on port 80. |
| `Application.ApplicationReconciler.Reconcile` | pkg/controller/drupalapplication/drupalapplication_controller.go:95-179 | Sets a missing Id, then the git label, one per pass; then the status is that of some list of exactly the application's environments sorted by name, written only if it differs. |
| `Application.SortByName` | pkg/controller/drupalapplication/drupalapplication_controller.go:150-153 | In place, the same environments in the order of their names. |
| `Application.FillStatus` | pkg/controller/drupalapplication/drupalapplication_controller.go:155-167 | One reference per environment, at its index, with its name, namespace, uid and Id label. |
| `Application.StatusMeaning` | pkg/controller/drupalapplication/drupalapplication_controller.go:140-167 | The status counts and lists exactly the environments with the application's Id, by name, each with its name, namespace, uid and Id label. |
| `Application.LessIsLexicographic` | pkg/controller/drupalapplication/drupalapplication_controller.go:150-153 | The order of names: the first different character decides, and a prefix comes first. |
| `Application.SortedIsUnique` | pkg/controller/drupalapplication/drupalapplication_controller.go:150-153 | With distinct names there is one sorted list, so the status does not depend on the order of the API server's list. |
| `Application.SwapEqualNames` | pkg/controller/drupalapplication/drupalapplication_controller.go:150-153 | Two environments of one name can be listed either way round. |
| `Application.SecondPassWritesNothingIff` | pkg/controller/drupalapplication/drupalapplication_controller.go:169-176 | A second pass writes nothing if and only if there is at least one environment. |

## Left out

Assumptions of the model:

- SiteMachine.After: a password Secret that nothing holds does not vanish while a worker relies on it whose copy of the Site lacks the cleanup finalizer (`SiteStuck.VanishedSecretFallsThroughIff` says what happens otherwise); no environment bears a site Id; users do not change a Site's Id, cleanup finalizer or deletion mark, and give a new Site an unused Id or none.
- SiteSafety.FinalizerSafety: database names of the site names in use are pairwise distinct, and nothing else in MySQL or ProxySQL has such a name; reads of the Site and of password Secrets are current, those of the shared maps may be stale.
- Credentials.CredentialAgreement: runs are tidy: no Site is created over a password Secret of its name (needed by `Credentials.CreationAgreesIff`); nothing is said of a ProxySQL row that has outlived its Secret until it is dropped (`Credentials.ReleaseOrphansIff`).
- SiteProgress.PassesConverge: no other worker acts between the passes, SQL statements succeed, and the environment bears no site Id.
- LabelFlow.IdsNeverChange: applications bear no environment Id, site Id or git reference, environments no site Id; `LabelFlow.EnvIdChangesIff` and `LabelFlow.SiteIdChangesIff` do without.
- Environment.RestsIff: the specification's own container names are distinct; an existing volume is a CSI volume; ProxySQL answers when the servers are configured.
- Volumes.VolumeSafety: passes of one environment are not interleaved with other events, provisioning is static throughout, and applications bear no environment Id, which would change the Id that a volume is found by.
- SiteWorker.RoutingCrashes: an Ingress with an empty set of annotations and one with none are the same, as the API server stores both alike.
- Finalizers.Resource: a nil list and an empty one are the same list.

Not modelled:

- Controller set-up, watches, schemes, metrics, leader election, logging, delays and backoff: a requeue is "another pass may run".
- The Kubernetes client, owner references of created objects and garbage collection beyond what deletion of a held object needs; one namespace per environment.
- SQL texts, connections and privileges: MySQL and ProxySQL are maps, a statement succeeds, fails, or is ignored.
- JSON, YAML, SHA-1, FNV and UUID: a codec with an assumed round trip, deterministic functions and fresh Ids.
- The templates of pods, Services and the autoscaler: values given by the specification; `resources` and `mounts` of the ProxySQL container are opaque.
- A job command that is an empty list makes the code read past its end; the model takes it for a failed pass.
- The sort of the application's environments is an insertion sort here; the source uses the library's, which promises no more than a sorted permutation.
- Exactly-once execution of jobs: a job whose annotation update fails is started again once its name is free.
- The count of environments is not wrapped at 32 bits.
- The site and environment controllers' finalizer lists are taken to be duplicate-free where a pass removes a finalizer; `Finalizers` says what happens otherwise.
