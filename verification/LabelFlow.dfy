/** Labels flow from an application to its environments and on to their sites, written by three
    controllers in any order (pkg/controller/drupalapplication/drupalapplication_controller.go,
    pkg/controller/drupalenvironment/drupalenvironment_controller.go, pkg/controller/site/site_controller.go). */
module LabelFlow {
  import opened Options
  import opened SiteTypes
  import opened LabelSync

  /** An application, environment or site: `parent` is the position of its parent, if there is one
      there; `hash` is the digest of its git repository or reference. */
  datatype Resource = Resource(labels: Labels, control: Control, parent: nat, hash: string)

  datatype World = World(apps: seq<Resource>, envs: seq<Resource>, sites: seq<Resource>)

  datatype Pass = AppPass(i: nat, id: string) | EnvPass(i: nat, id: string) | SitePass(i: nat, id: string)

  // ---- The label stages of a pass ----

  /** A missing Id or git label is written first, one per pass. */
  function Named(r: Resource, idKey: string, id: string): Resource {
    if Label(r.labels, idKey) == "" then r.(labels := r.labels[idKey := id]) else r
  }

  function Hashed(r: Resource, key: string): Resource {
    if key in r.labels && r.labels[key] == r.hash then r else r.(labels := r.labels[key := r.hash])
  }

  /** The parent exists, and nobody else controls the object. */
  predicate Linkable(r: Resource, parents: seq<Resource>) {
    r.parent < |parents| && r.control != ByOther
  }

  /** LinkToOwner; an object that someone else controls is left alone. */
  function Linked(r: Resource, parents: seq<Resource>): Resource {
    if !Linkable(r, parents) then r
    else r.(labels := SyncedLabels(parents[r.parent].labels, r.labels, LABEL_PREFIX), control := ByParent)
  }

  function AppAfter(a: Resource, id: string): Resource {
    if Named(a, APPLICATION_ID, id) != a then Named(a, APPLICATION_ID, id) else Hashed(a, GIT_REPO)
  }

  function EnvAfter(e: Resource, apps: seq<Resource>, id: string): Resource {
    if Named(e, ENVIRONMENT_ID, id) != e then Named(e, ENVIRONMENT_ID, id)
    else if Hashed(e, GIT_REF) != e then Hashed(e, GIT_REF)
    else Linked(e, apps)
  }

  /** A site also needs the application of its environment. */
  function SiteAfter(s: Resource, envs: seq<Resource>, apps: seq<Resource>, id: string): Resource {
    if Named(s, SITE_ID, id) != s then Named(s, SITE_ID, id)
    else if s.parent < |envs| && envs[s.parent].parent >= |apps| then s
    else Linked(s, envs)
  }

  function After(w: World, p: Pass): World {
    match p
    case AppPass(i, id) => if i < |w.apps| then w.(apps := w.apps[i := AppAfter(w.apps[i], id)]) else w
    case EnvPass(i, id) => if i < |w.envs| then w.(envs := w.envs[i := EnvAfter(w.envs[i], w.apps, id)]) else w
    case SitePass(i, id) =>
      if i < |w.sites| then w.(sites := w.sites[i := SiteAfter(w.sites[i], w.envs, w.apps, id)]) else w
  }

  /** Ids are UUIDs. */
  predicate Fresh(p: Pass) {
    p.id != ""
  }

  // ---- The labels that must not come from above ----

  predicate Lacks(r: Resource, key: string) {
    key !in r.labels
  }

  ghost predicate AppsClean(apps: seq<Resource>) {
    forall i :: 0 <= i < |apps| ==> Lacks(apps[i], ENVIRONMENT_ID) && Lacks(apps[i], SITE_ID) && Lacks(apps[i], GIT_REF)
  }

  ghost predicate EnvsClean(envs: seq<Resource>) {
    forall i :: 0 <= i < |envs| ==> Lacks(envs[i], SITE_ID)
  }

  ghost predicate Clean(w: World) {
    AppsClean(w.apps) && EnvsClean(w.envs)
  }

  lemma KeysDiffer()
    ensures APPLICATION_ID != ENVIRONMENT_ID && APPLICATION_ID != SITE_ID && ENVIRONMENT_ID != SITE_ID
    ensures GIT_REF != GIT_REPO && GIT_REF != ENVIRONMENT_ID && GIT_REF != APPLICATION_ID && GIT_REF != SITE_ID
    ensures GIT_REPO != APPLICATION_ID && GIT_REPO != ENVIRONMENT_ID && GIT_REPO != SITE_ID
  {
    assert APPLICATION_ID[22..] == "application-id" && ENVIRONMENT_ID[22..] == "environment-id"
      && SITE_ID[22..] == "site-id";
    assert GIT_REPO[22..] == "git-repo" && GIT_REF[22..] == "git-ref";
  }

  // ---- One resource ----

  lemma LinkedMeaning(r: Resource, parents: seq<Resource>)
    ensures var l := Linked(r, parents);
            && Linked(l, parents) == l && l == r.(labels := l.labels, control := l.control)
            && (Linkable(r, parents) ==>
                  && (l == r <==> r.control == ByParent && InSync(parents[r.parent].labels, r.labels, LABEL_PREFIX))
                  && InSync(parents[r.parent].labels, l.labels, LABEL_PREFIX))
            && (forall k :: (r.parent < |parents| ==> Lacks(parents[r.parent], k)) ==>
                  (k in l.labels <==> k in r.labels) && (k in r.labels ==> l.labels[k] == r.labels[k]))
  {
    if r.parent < |parents| {
      SyncedLabelsMeaning(parents[r.parent].labels, r.labels, LABEL_PREFIX);
    }
  }

  /** A label that the parent does not bear, or not with the value that stood there, cannot put a
      linked object out of line. */
  lemma LinkIgnores(r: Resource, parents: seq<Resource>, key: string, v: string)
    requires HasPrefix(key, LABEL_PREFIX)
    requires Linkable(r, parents) && key in parents[r.parent].labels ==>
               !(key in r.labels && r.labels[key] == parents[r.parent].labels[key])
    ensures var q := r.(labels := r.labels[key := v]); Linked(r, parents) == r ==> Linked(q, parents) == q
  {
    var q := r.(labels := r.labels[key := v]);
    LinkedMeaning(r, parents);
    LinkedMeaning(q, parents);
  }

  lemma EnvKeeps(e: Resource, apps: seq<Resource>, id: string)
    requires e.parent < |apps| ==> Lacks(apps[e.parent], ENVIRONMENT_ID) && Lacks(apps[e.parent], SITE_ID)
    ensures var f := EnvAfter(e, apps, id);
            && f.parent == e.parent && f.hash == e.hash && (Lacks(e, SITE_ID) ==> Lacks(f, SITE_ID))
            && (Label(e.labels, ENVIRONMENT_ID) != "" ==>
                  Label(f.labels, ENVIRONMENT_ID) == Label(e.labels, ENVIRONMENT_ID))
  {
    KeysDiffer();
    LinkedMeaning(e, apps);
  }

  lemma SiteKeeps(s: Resource, envs: seq<Resource>, apps: seq<Resource>, id: string)
    requires s.parent < |envs| ==> Lacks(envs[s.parent], SITE_ID)
    ensures var t := SiteAfter(s, envs, apps, id);
            && t.parent == s.parent
            && (Label(s.labels, SITE_ID) != "" ==> Label(t.labels, SITE_ID) == Label(s.labels, SITE_ID))
  {
    LinkedMeaning(s, envs);
  }

  lemma AppKeeps(a: Resource, id: string)
    ensures var b := AppAfter(a, id);
            && b.parent == a.parent
            && (forall k :: k != APPLICATION_ID && k != GIT_REPO && Lacks(a, k) ==> Lacks(b, k))
            && (Label(a.labels, APPLICATION_ID) != "" ==>
                  Label(b.labels, APPLICATION_ID) == Label(a.labels, APPLICATION_ID))
  {
    KeysDiffer();
  }

  // ---- Ids never change ----

  predicate KeepsId(r: Resource, q: Resource, key: string) {
    Label(r.labels, key) != "" ==> Label(q.labels, key) == Label(r.labels, key)
  }

  ghost predicate IdsKept(w: World, v: World) {
    && |v.apps| == |w.apps| && |v.envs| == |w.envs| && |v.sites| == |w.sites|
    && (forall i :: 0 <= i < |w.apps| ==> KeepsId(w.apps[i], v.apps[i], APPLICATION_ID))
    && (forall i :: 0 <= i < |w.envs| ==> KeepsId(w.envs[i], v.envs[i], ENVIRONMENT_ID))
    && (forall i :: 0 <= i < |w.sites| ==> KeepsId(w.sites[i], v.sites[i], SITE_ID))
  }

  lemma PassKeeps(w: World, p: Pass)
    requires Clean(w)
    ensures Clean(After(w, p)) && IdsKept(w, After(w, p))
  {
    KeysDiffer();
    match p
    case AppPass(i, id) => if i < |w.apps| { AppKeeps(w.apps[i], id); }
    case EnvPass(i, id) => if i < |w.envs| { EnvKeeps(w.envs[i], w.apps, id); }
    case SitePass(i, id) => if i < |w.sites| { SiteKeeps(w.sites[i], w.envs, w.apps, id); }
  }

  function Run(w: World, passes: seq<Pass>): World
    decreases |passes|
  {
    if passes == [] then w else Run(After(w, passes[0]), passes[1..])
  }

  /** In any interleaving of the three controllers' passes, no Id changes once it is set. */
  lemma {:induction false} IdsNeverChange(w: World, passes: seq<Pass>)
    requires Clean(w)
    ensures Clean(Run(w, passes)) && IdsKept(w, Run(w, passes))
    decreases |passes|
  {
    if passes != [] {
      PassKeeps(w, passes[0]);
      IdsNeverChange(After(w, passes[0]), passes[1..]);
      KeptTwice(w, After(w, passes[0]), Run(w, passes));
    }
  }

  lemma KeptTwice(u: World, v: World, w: World)
    requires IdsKept(u, v) && IdsKept(v, w)
    ensures IdsKept(u, w)
  {
    forall i | 0 <= i < |u.apps| ensures KeepsId(u.apps[i], w.apps[i], APPLICATION_ID) {
      assert KeepsId(u.apps[i], v.apps[i], APPLICATION_ID) && KeepsId(v.apps[i], w.apps[i], APPLICATION_ID);
    }
    forall i | 0 <= i < |u.envs| ensures KeepsId(u.envs[i], w.envs[i], ENVIRONMENT_ID) {
      assert KeepsId(u.envs[i], v.envs[i], ENVIRONMENT_ID) && KeepsId(v.envs[i], w.envs[i], ENVIRONMENT_ID);
    }
    forall i | 0 <= i < |u.sites| ensures KeepsId(u.sites[i], w.sites[i], SITE_ID) {
      assert KeepsId(u.sites[i], v.sites[i], SITE_ID) && KeepsId(v.sites[i], w.sites[i], SITE_ID);
    }
  }

  // ---- How much is left to write ----

  function One(b: bool): nat {
    if b then 1 else 0
  }

  function AppNeed(a: Resource): nat {
    One(Label(a.labels, APPLICATION_ID) == "") + One(Hashed(a, GIT_REPO) != a)
  }

  function EnvNeed(e: Resource, apps: seq<Resource>): nat {
    One(Label(e.labels, ENVIRONMENT_ID) == "") + One(Hashed(e, GIT_REF) != e) + One(Linked(e, apps) != e)
  }

  predicate Reachable(s: Resource, envs: seq<Resource>, apps: seq<Resource>) {
    s.parent < |envs| ==> envs[s.parent].parent < |apps|
  }

  function SiteNeed(s: Resource, envs: seq<Resource>, apps: seq<Resource>): nat {
    One(Label(s.labels, SITE_ID) == "") + One(Reachable(s, envs, apps) && Linked(s, envs) != s)
  }

  lemma AppProgress(a: Resource, id: string)
    requires id != ""
    ensures AppAfter(a, id) != a ==> AppNeed(AppAfter(a, id)) < AppNeed(a)
  {
    KeysDiffer();
  }

  /** The application of an environment hands down neither the hash of another reference nor an
      empty Id. */
  predicate Suits(e: Resource, apps: seq<Resource>) {
    Linkable(e, apps) ==>
      && (GIT_REF in apps[e.parent].labels ==> apps[e.parent].labels[GIT_REF] == e.hash)
      && (ENVIRONMENT_ID in apps[e.parent].labels ==> apps[e.parent].labels[ENVIRONMENT_ID] != "")
  }

  lemma EnvProgress(e: Resource, apps: seq<Resource>, id: string)
    requires id != "" && Suits(e, apps)
    ensures EnvAfter(e, apps, id) != e ==> EnvNeed(EnvAfter(e, apps, id), apps) < EnvNeed(e, apps)
  {
    KeysDiffer();
    LinkedMeaning(e, apps);
    if Named(e, ENVIRONMENT_ID, id) != e {
      LinkIgnores(e, apps, ENVIRONMENT_ID, id);
    } else if Hashed(e, GIT_REF) != e {
      LinkIgnores(e, apps, GIT_REF, e.hash);
    }
  }

  lemma SiteProgress(s: Resource, envs: seq<Resource>, apps: seq<Resource>, id: string)
    requires id != "" && (Linkable(s, envs) && Reachable(s, envs, apps) ==> !Empty(envs[s.parent]))
    ensures SiteAfter(s, envs, apps, id) != s ==>
              SiteNeed(SiteAfter(s, envs, apps, id), envs, apps) < SiteNeed(s, envs, apps)
  {
    LinkedMeaning(s, envs);
    if Named(s, SITE_ID, id) != s && Reachable(s, envs, apps) {
      LinkIgnores(s, envs, SITE_ID, id);
    }
  }

  /** The label of a site's Id is there and empty. */
  predicate Empty(e: Resource) {
    SITE_ID in e.labels && e.labels[SITE_ID] == ""
  }

  /** A pass that writes nothing has nothing left to write. */
  lemma NothingNeeded(w: World, i: nat, id: string)
    requires id != ""
    ensures i < |w.apps| && AppAfter(w.apps[i], id) == w.apps[i] ==> AppNeed(w.apps[i]) == 0
    ensures i < |w.envs| && EnvAfter(w.envs[i], w.apps, id) == w.envs[i] ==> EnvNeed(w.envs[i], w.apps) == 0
    ensures i < |w.sites| && SiteAfter(w.sites[i], w.envs, w.apps, id) == w.sites[i] ==>
              SiteNeed(w.sites[i], w.envs, w.apps) == 0
  {
  }

  // ---- What never settles ----

  predicate AllFresh(passes: seq<Pass>) {
    forall i :: 0 <= i < |passes| ==> Fresh(passes[i])
  }

  ghost predicate EnvConflict(w: World, i: nat) {
    i < |w.envs| && !Suits(w.envs[i], w.apps)
  }

  /** The Id label that an environment hands down to its sites in the end: its application's, if it
      links to one that has it, or else its own. */
  function Inherited(e: Resource, apps: seq<Resource>): Option<string> {
    if Linkable(e, apps) && SITE_ID in apps[e.parent].labels then Some(apps[e.parent].labels[SITE_ID])
    else if SITE_ID in e.labels then Some(e.labels[SITE_ID])
    else None
  }

  predicate SiteLinks(w: World, s: nat) {
    s < |w.sites| && Linkable(w.sites[s], w.envs) && w.envs[w.sites[s].parent].parent < |w.apps|
  }

  ghost predicate SiteConflict(w: World, s: nat) {
    SiteLinks(w, s) && Inherited(w.envs[w.sites[s].parent], w.apps) == Some("")
  }

  /** Someone is handed down a label that its own controller does not leave standing. */
  ghost predicate Conflicted(w: World) {
    (exists i: nat :: EnvConflict(w, i)) || (exists s: nat :: SiteConflict(w, s))
  }

  /** No conflict, and no empty Id to be handed down even before the environments have settled. */
  ghost predicate Steady(w: World) {
    !Conflicted(w) && forall s: nat :: SiteLinks(w, s) ==> !Empty(w.envs[w.sites[s].parent])
  }

  lemma CleanIsSteady(w: World)
    requires Clean(w)
    ensures Steady(w)
  {
    forall i: nat ensures !EnvConflict(w, i) {
      if i < |w.envs| && Linkable(w.envs[i], w.apps) {
        assert Lacks(w.apps[w.envs[i].parent], GIT_REF);
      }
    }
    forall s: nat ensures !SiteConflict(w, s) {
      if SiteLinks(w, s) {
        var e := w.envs[w.sites[s].parent];
        assert Lacks(e, SITE_ID) && (Linkable(e, w.apps) ==> Lacks(w.apps[e.parent], SITE_ID));
      }
    }
  }

  /** As far as conflicts go, two applications are the same. */
  predicate HandsDown(a: Resource, b: Resource, key: string) {
    (key in a.labels <==> key in b.labels) && (key in a.labels ==> a.labels[key] == b.labels[key])
  }

  predicate SameApp(a: Resource, b: Resource) {
    HandsDown(a, b, GIT_REF) && HandsDown(a, b, ENVIRONMENT_ID) && HandsDown(a, b, SITE_ID)
  }

  lemma AppStays(a: Resource, id: string)
    ensures SameApp(a, AppAfter(a, id))
  {
    KeysDiffer();
  }

  lemma EnvStays(e: Resource, apps: seq<Resource>, id: string)
    ensures var f := EnvAfter(e, apps, id);
            && f.parent == e.parent && f.hash == e.hash && (f.control == ByOther <==> e.control == ByOther)
            && (Suits(f, apps) <==> Suits(e, apps)) && Inherited(f, apps) == Inherited(e, apps)
            && (Empty(f) ==> Empty(e) || Inherited(e, apps) == Some(""))
  {
    KeysDiffer();
    LinkedMeaning(e, apps);
  }

  lemma SameConflicts(e: Resource, apps: seq<Resource>, others: seq<Resource>)
    requires |apps| == |others| && forall i :: 0 <= i < |apps| ==> SameApp(apps[i], others[i])
    ensures (Suits(e, apps) <==> Suits(e, others)) && Inherited(e, apps) == Inherited(e, others)
  {
    if Linkable(e, apps) {
      assert SameApp(apps[e.parent], others[e.parent]);
    }
  }

  /** What conflicts depend on, one environment or site at a time. */
  ghost predicate SameOutlook(w: World, v: World) {
    && |v.apps| == |w.apps| && |v.envs| == |w.envs| && |v.sites| == |w.sites|
    && (forall i :: 0 <= i < |w.envs| ==>
          && v.envs[i].parent == w.envs[i].parent
          && (Suits(v.envs[i], v.apps) <==> Suits(w.envs[i], w.apps))
          && Inherited(v.envs[i], v.apps) == Inherited(w.envs[i], w.apps)
          && (Empty(v.envs[i]) ==> Empty(w.envs[i]) || Inherited(w.envs[i], w.apps) == Some("")))
    && (forall s :: 0 <= s < |w.sites| ==>
          v.sites[s].parent == w.sites[s].parent && (v.sites[s].control == ByOther <==> w.sites[s].control == ByOther))
  }

  lemma PassKeepsOutlook(w: World, p: Pass)
    ensures SameOutlook(w, After(w, p))
  {
    var v := After(w, p);
    match p
    case AppPass(i, id) =>
      if i < |w.apps| { AppStays(w.apps[i], id); }
      forall e | 0 <= e < |w.envs|
        ensures (Suits(v.envs[e], v.apps) <==> Suits(w.envs[e], w.apps))
                && Inherited(v.envs[e], v.apps) == Inherited(w.envs[e], w.apps)
      {
        SameConflicts(w.envs[e], w.apps, v.apps);
      }
    case EnvPass(i, id) => if i < |w.envs| { EnvStays(w.envs[i], w.apps, id); }
    case SitePass(i, id) => if i < |w.sites| { LinkedMeaning(w.sites[i], w.envs); }
  }

  lemma SameOutlookSameConflicts(w: World, v: World)
    requires SameOutlook(w, v)
    ensures forall i: nat :: EnvConflict(v, i) <==> EnvConflict(w, i)
    ensures forall s: nat :: SiteConflict(v, s) <==> SiteConflict(w, s)
    ensures Conflicted(v) <==> Conflicted(w)
    ensures Steady(w) ==> Steady(v)
  {
    forall i: nat ensures EnvConflict(v, i) <==> EnvConflict(w, i) {
    }
    forall s: nat ensures SiteConflict(v, s) <==> SiteConflict(w, s) {
    }
    if Steady(w) {
      forall s: nat | SiteLinks(v, s) ensures !Empty(v.envs[v.sites[s].parent]) {
        assert SiteLinks(w, s) && !SiteConflict(w, s);
      }
    }
  }

  lemma StaysSteady(w: World, p: Pass)
    requires Steady(w)
    ensures Steady(After(w, p))
  {
    PassKeepsOutlook(w, p);
    SameOutlookSameConflicts(w, After(w, p));
  }

  /** No pass makes a conflict and none resolves one. */
  lemma {:induction false} ConflictsStay(w: World, passes: seq<Pass>)
    ensures forall i: nat :: EnvConflict(Run(w, passes), i) <==> EnvConflict(w, i)
    ensures forall s: nat :: SiteConflict(Run(w, passes), s) <==> SiteConflict(w, s)
    decreases |passes|
  {
    if passes != [] {
      PassKeepsOutlook(w, passes[0]);
      SameOutlookSameConflicts(w, After(w, passes[0]));
      ConflictsStay(After(w, passes[0]), passes[1..]);
    }
  }

  // ---- Sums over the world ----

  function AppSum(apps: seq<Resource>): nat
    decreases |apps|
  {
    if apps == [] then 0 else AppNeed(apps[0]) + AppSum(apps[1..])
  }

  function EnvSum(envs: seq<Resource>, apps: seq<Resource>): nat
    decreases |envs|
  {
    if envs == [] then 0 else EnvNeed(envs[0], apps) + EnvSum(envs[1..], apps)
  }

  function SiteSum(sites: seq<Resource>, envs: seq<Resource>, apps: seq<Resource>): nat
    decreases |sites|
  {
    if sites == [] then 0 else SiteNeed(sites[0], envs, apps) + SiteSum(sites[1..], envs, apps)
  }

  lemma {:induction false} AppSumUpdate(apps: seq<Resource>, i: nat, a: Resource)
    requires i < |apps|
    ensures AppSum(apps[i := a]) == AppSum(apps) - AppNeed(apps[i]) + AppNeed(a)
    decreases |apps|
  {
    if i == 0 {
      assert apps[i := a][1..] == apps[1..];
    } else {
      assert apps[i := a][1..] == apps[1..][i - 1 := a];
      AppSumUpdate(apps[1..], i - 1, a);
    }
  }

  lemma {:induction false} EnvSumUpdate(envs: seq<Resource>, apps: seq<Resource>, i: nat, e: Resource)
    requires i < |envs|
    ensures EnvSum(envs[i := e], apps) == EnvSum(envs, apps) - EnvNeed(envs[i], apps) + EnvNeed(e, apps)
    decreases |envs|
  {
    if i == 0 {
      assert envs[i := e][1..] == envs[1..];
    } else {
      assert envs[i := e][1..] == envs[1..][i - 1 := e];
      EnvSumUpdate(envs[1..], apps, i - 1, e);
    }
  }

  lemma {:induction false} SiteSumUpdate(sites: seq<Resource>, envs: seq<Resource>, apps: seq<Resource>, i: nat,
                                         s: Resource)
    requires i < |sites|
    ensures SiteSum(sites[i := s], envs, apps)
            == SiteSum(sites, envs, apps) - SiteNeed(sites[i], envs, apps) + SiteNeed(s, envs, apps)
    decreases |sites|
  {
    if i == 0 {
      assert sites[i := s][1..] == sites[1..];
    } else {
      assert sites[i := s][1..] == sites[1..][i - 1 := s];
      SiteSumUpdate(sites[1..], envs, apps, i - 1, s);
    }
  }

  /** A write to a parent can put every child out of step, by one write each. */
  lemma {:induction false} EnvSumAbove(envs: seq<Resource>, apps: seq<Resource>, others: seq<Resource>)
    ensures EnvSum(envs, others) <= EnvSum(envs, apps) + |envs|
    decreases |envs|
  {
    if envs != [] {
      EnvSumAbove(envs[1..], apps, others);
    }
  }

  lemma {:induction false} SiteSumAbove(sites: seq<Resource>, envs: seq<Resource>, others: seq<Resource>,
                                        apps: seq<Resource>)
    ensures SiteSum(sites, others, apps) <= SiteSum(sites, envs, apps) + |sites|
    decreases |sites|
  {
    if sites != [] {
      SiteSumAbove(sites[1..], envs, others, apps);
    }
  }

  lemma {:induction false} SiteSumSame(sites: seq<Resource>, envs: seq<Resource>, apps: seq<Resource>,
                                       others: seq<Resource>)
    requires |apps| == |others|
    ensures SiteSum(sites, envs, others) == SiteSum(sites, envs, apps)
    decreases |sites|
  {
    if sites != [] {
      SiteSumSame(sites[1..], envs, apps, others);
    }
  }

  /** An application's write weighs more than the writes that it can cause below, and so does an
      environment's. */
  function Weight(apps: nat, envs: nat, sites: nat, numEnvs: nat, numSites: nat): nat {
    apps * (1 + numEnvs * (1 + numSites)) + envs * (1 + numSites) + sites
  }

  function Measure(w: World): nat {
    Weight(AppSum(w.apps), EnvSum(w.envs, w.apps), SiteSum(w.sites, w.envs, w.apps), |w.envs|, |w.sites|)
  }

  lemma Scales(a: nat, b: nat, k: nat)
    requires a <= b
    ensures a * k <= b * k
  {
  }

  lemma AppWeighs(a: nat, e: nat, s: nat, a': nat, e': nat, numEnvs: nat, numSites: nat)
    requires a' < a && e' <= e + numEnvs
    ensures Weight(a', e', s, numEnvs, numSites) < Weight(a, e, s, numEnvs, numSites)
  {
    var k := 1 + numSites;
    var m := 1 + numEnvs * k;
    Scales(a' + 1, a, m);
    assert (a' + 1) * m == a' * m + m;
    Scales(e', e + numEnvs, k);
    assert (e + numEnvs) * k == e * k + numEnvs * k;
  }

  lemma EnvWeighs(a: nat, e: nat, s: nat, e': nat, s': nat, numEnvs: nat, numSites: nat)
    requires e' < e && s' <= s + numSites
    ensures Weight(a, e', s', numEnvs, numSites) < Weight(a, e, s, numEnvs, numSites)
  {
    Scales(e' + 1, e, 1 + numSites);
  }

  lemma AppWrites(w: World, i: nat, id: string)
    requires i < |w.apps| && id != "" && AppAfter(w.apps[i], id) != w.apps[i]
    ensures Measure(After(w, AppPass(i, id))) < Measure(w)
  {
    var a := AppAfter(w.apps[i], id);
    var apps := w.apps[i := a];
    AppProgress(w.apps[i], id);
    AppSumUpdate(w.apps, i, a);
    EnvSumAbove(w.envs, w.apps, apps);
    SiteSumSame(w.sites, w.envs, w.apps, apps);
    AppWeighs(AppSum(w.apps), EnvSum(w.envs, w.apps), SiteSum(w.sites, w.envs, w.apps), AppSum(apps),
              EnvSum(w.envs, apps), |w.envs|, |w.sites|);
  }

  lemma EnvWrites(w: World, i: nat, id: string)
    requires Steady(w) && i < |w.envs| && id != "" && EnvAfter(w.envs[i], w.apps, id) != w.envs[i]
    ensures Measure(After(w, EnvPass(i, id))) < Measure(w)
  {
    var e := EnvAfter(w.envs[i], w.apps, id);
    var envs := w.envs[i := e];
    assert !EnvConflict(w, i);
    EnvProgress(w.envs[i], w.apps, id);
    EnvSumUpdate(w.envs, w.apps, i, e);
    SiteSumAbove(w.sites, w.envs, envs, w.apps);
    EnvWeighs(AppSum(w.apps), EnvSum(w.envs, w.apps), SiteSum(w.sites, w.envs, w.apps),
              EnvSum(envs, w.apps), SiteSum(w.sites, envs, w.apps), |w.envs|, |w.sites|);
  }

  lemma SiteWrites(w: World, i: nat, id: string)
    requires Steady(w) && i < |w.sites| && id != "" && SiteAfter(w.sites[i], w.envs, w.apps, id) != w.sites[i]
    ensures Measure(After(w, SitePass(i, id))) < Measure(w)
  {
    var s := SiteAfter(w.sites[i], w.envs, w.apps, id);
    SiteProgress(w.sites[i], w.envs, w.apps, id);
    SiteSumUpdate(w.sites, w.envs, w.apps, i, s);
  }

  /** Every write takes from the measure. */
  lemma WriteProgress(w: World, p: Pass)
    requires Steady(w) && Fresh(p) && After(w, p) != w
    ensures Measure(After(w, p)) < Measure(w)
  {
    match p
    case AppPass(i, id) =>
      assert w.apps[i := w.apps[i]] == w.apps;
      AppWrites(w, i, id);
    case EnvPass(i, id) =>
      assert w.envs[i := w.envs[i]] == w.envs;
      EnvWrites(w, i, id);
    case SitePass(i, id) =>
      assert w.sites[i := w.sites[i]] == w.sites;
      SiteWrites(w, i, id);
  }

  function Writes(w: World, passes: seq<Pass>): nat
    decreases |passes|
  {
    if passes == [] then 0 else One(After(w, passes[0]) != w) + Writes(After(w, passes[0]), passes[1..])
  }

  /** However the passes are interleaved and however often they are repeated, the number of label
      writes is bounded by a number that depends on the start alone. */
  lemma {:induction false} WritesAreBounded(w: World, passes: seq<Pass>)
    requires Steady(w) && AllFresh(passes)
    ensures Writes(w, passes) + Measure(Run(w, passes)) <= Measure(w)
    decreases |passes|
  {
    if passes != [] {
      var v := After(w, passes[0]);
      StaysSteady(w, passes[0]);
      assert Fresh(passes[0]);
      if v != w {
        WriteProgress(w, passes[0]);
      }
      WritesAreBounded(v, passes[1..]);
    }
  }

  // ---- At rest ----

  ghost predicate Quiet(w: World) {
    forall p: Pass :: Fresh(p) ==> After(w, p) == w
  }

  /** The labels that a resource has from its parent. */
  predicate HasLabelsOf(parent: Resource, child: Resource) {
    InSync(parent.labels, child.labels, LABEL_PREFIX)
  }

  lemma QuietEnv(w: World, i: nat)
    requires Quiet(w) && i < |w.envs|
    ensures EnvNeed(w.envs[i], w.apps) == 0
  {
    assert After(w, EnvPass(i, "x")) == w;
    assert After(w, EnvPass(i, "x")).envs[i] == EnvAfter(w.envs[i], w.apps, "x");
    NothingNeeded(w, i, "x");
  }

  lemma QuietSite(w: World, i: nat)
    requires Quiet(w) && i < |w.sites|
    ensures SiteNeed(w.sites[i], w.envs, w.apps) == 0
  {
    assert After(w, SitePass(i, "x")) == w;
    assert After(w, SitePass(i, "x")).sites[i] == SiteAfter(w.sites[i], w.envs, w.apps, "x");
    NothingNeeded(w, i, "x");
  }

  /** At rest every application, environment and site has an Id, and the first two their git hashes. */
  lemma QuietMeansNamed(w: World, i: nat)
    requires Quiet(w)
    ensures i < |w.apps| ==>
              && Label(w.apps[i].labels, "fnresources.acquia.io/application-id") != ""
              && "fnresources.acquia.io/git-repo" in w.apps[i].labels
              && w.apps[i].labels["fnresources.acquia.io/git-repo"] == w.apps[i].hash
    ensures i < |w.envs| ==>
              && Label(w.envs[i].labels, "fnresources.acquia.io/environment-id") != ""
              && "fnresources.acquia.io/git-ref" in w.envs[i].labels
              && w.envs[i].labels["fnresources.acquia.io/git-ref"] == w.envs[i].hash
    ensures i < |w.sites| ==> Label(w.sites[i].labels, "fnresources.acquia.io/site-id") != ""
  {
    if i < |w.apps| {
      assert After(w, AppPass(i, "x")) == w;
      assert After(w, AppPass(i, "x")).apps[i] == AppAfter(w.apps[i], "x");
      NothingNeeded(w, i, "x");
    }
    if i < |w.envs| {
      QuietEnv(w, i);
    }
    if i < |w.sites| {
      QuietSite(w, i);
    }
  }

  /** At rest every application's labels are on its environments, and theirs on their sites; a
      parent that is missing or someone else's control is the only exception. */
  lemma QuietMeansPropagated(w: World, e: nat, s: nat)
    requires Quiet(w)
    ensures e < |w.envs| && Linkable(w.envs[e], w.apps) ==>
              w.envs[e].control == ByParent && HasLabelsOf(w.apps[w.envs[e].parent], w.envs[e])
    ensures SiteLinks(w, s) ==> w.sites[s].control == ByParent && HasLabelsOf(w.envs[w.sites[s].parent], w.sites[s])
  {
    if e < |w.envs| {
      QuietEnv(w, e);
      LinkedMeaning(w.envs[e], w.apps);
    }
    if s < |w.sites| {
      QuietSite(w, s);
      LinkedMeaning(w.sites[s], w.envs);
    }
  }

  /** So a site bears its application's labels, through its environment. */
  lemma QuietMeansTransitive(w: World, s: nat)
    requires Quiet(w) && SiteLinks(w, s) && Linkable(w.envs[w.sites[s].parent], w.apps)
    ensures HasLabelsOf(w.apps[w.envs[w.sites[s].parent].parent], w.sites[s])
  {
    var e := w.sites[s].parent;
    QuietMeansPropagated(w, e, s);
    var app, env, site := w.apps[w.envs[e].parent], w.envs[e], w.sites[s];
    forall k | k in app.labels && HasPrefix(k, LABEL_PREFIX)
      ensures k in site.labels && site.labels[k] == app.labels[k]
    {
      assert k in env.labels && env.labels[k] == app.labels[k];
    }
  }

  // ---- Exactly when the labels come to rest ----

  lemma QuietHasNoConflict(w: World)
    requires Quiet(w)
    ensures !Conflicted(w)
  {
    KeysDiffer();
    assert HasPrefix(GIT_REF, LABEL_PREFIX) && HasPrefix(ENVIRONMENT_ID, LABEL_PREFIX)
      && HasPrefix(SITE_ID, LABEL_PREFIX);
    forall i: nat ensures !EnvConflict(w, i) {
      if i < |w.envs| {
        QuietEnv(w, i);
        QuietMeansPropagated(w, i, 0);
      }
    }
    forall s: nat ensures !SiteConflict(w, s) {
      if SiteLinks(w, s) {
        QuietSite(w, s);
        QuietMeansPropagated(w, w.sites[s].parent, s);
      }
    }
  }

  /** A conflict keeps its environment or site, and so the whole, from ever coming to rest. */
  lemma ConflictNeverRests(w: World, passes: seq<Pass>)
    requires Conflicted(w)
    ensures Conflicted(Run(w, passes)) && !Quiet(Run(w, passes))
  {
    ConflictsStay(w, passes);
    var v := Run(w, passes);
    if i: nat :| EnvConflict(w, i) {
      assert EnvConflict(v, i);
    } else {
      var s: nat :| SiteConflict(w, s);
      assert SiteConflict(v, s);
    }
    if Quiet(v) {
      QuietHasNoConflict(v);
    }
  }

  lemma {:induction false} SomeAppNeeds(apps: seq<Resource>) returns (i: nat)
    requires AppSum(apps) > 0
    ensures i < |apps| && AppNeed(apps[i]) > 0
    decreases |apps|
  {
    if AppNeed(apps[0]) > 0 {
      i := 0;
    } else {
      var j := SomeAppNeeds(apps[1..]);
      i := j + 1;
    }
  }

  lemma {:induction false} SomeEnvNeeds(envs: seq<Resource>, apps: seq<Resource>) returns (i: nat)
    requires EnvSum(envs, apps) > 0
    ensures i < |envs| && EnvNeed(envs[i], apps) > 0
    decreases |envs|
  {
    if EnvNeed(envs[0], apps) > 0 {
      i := 0;
    } else {
      var j := SomeEnvNeeds(envs[1..], apps);
      i := j + 1;
    }
  }

  lemma {:induction false} SomeSiteNeeds(sites: seq<Resource>, envs: seq<Resource>, apps: seq<Resource>)
    returns (i: nat)
    requires SiteSum(sites, envs, apps) > 0
    ensures i < |sites| && SiteNeed(sites[i], envs, apps) > 0
    decreases |sites|
  {
    if SiteNeed(sites[0], envs, apps) > 0 {
      i := 0;
    } else {
      var j := SomeSiteNeeds(sites[1..], envs, apps);
      i := j + 1;
    }
  }

  lemma {:induction false} NoEnvNeeds(envs: seq<Resource>, apps: seq<Resource>, i: nat)
    requires EnvSum(envs, apps) == 0 && i < |envs|
    ensures EnvNeed(envs[i], apps) == 0
    decreases |envs|
  {
    if i > 0 {
      NoEnvNeeds(envs[1..], apps, i - 1);
    }
  }

  /** Once its environment has settled, only a conflict can hand an empty Id to a site. */
  lemma SettledEnv(w: World, s: nat)
    requires !Conflicted(w) && EnvSum(w.envs, w.apps) == 0 && SiteLinks(w, s)
    ensures !Empty(w.envs[w.sites[s].parent])
  {
    var e := w.sites[s].parent;
    NoEnvNeeds(w.envs, w.apps, e);
    LinkedMeaning(w.envs[e], w.apps);
    assert !SiteConflict(w, s) && HasPrefix(SITE_ID, LABEL_PREFIX);
  }

  lemma NothingLeft(w: World)
    requires AppSum(w.apps) == 0 && EnvSum(w.envs, w.apps) == 0 && SiteSum(w.sites, w.envs, w.apps) == 0
             && !Conflicted(w)
    ensures Quiet(w)
  {
    forall p: Pass | Fresh(p) ensures After(w, p) == w {
      if After(w, p) != w {
        if p.SitePass? && p.i < |w.sites| && SiteLinks(w, p.i) {
          SettledEnv(w, p.i);
        }
        NeedsFall(w, p);
      }
    }
  }

  /** A write takes from the needs at its own level. */
  lemma NeedsFall(w: World, p: Pass)
    requires Fresh(p) && After(w, p) != w && !Conflicted(w)
    requires p.SitePass? && SiteLinks(w, p.i) ==> !Empty(w.envs[w.sites[p.i].parent])
    ensures var v := After(w, p);
            match p
            case AppPass(_, _) => AppSum(v.apps) < AppSum(w.apps)
            case EnvPass(_, _) => v.apps == w.apps && EnvSum(v.envs, v.apps) < EnvSum(w.envs, w.apps)
            case SitePass(_, _) =>
              v.apps == w.apps && v.envs == w.envs
                && SiteSum(v.sites, v.envs, v.apps) < SiteSum(w.sites, w.envs, w.apps)
  {
    match p
    case AppPass(i, id) =>
      assert w.apps[i := w.apps[i]] == w.apps;
      AppProgress(w.apps[i], id);
      AppSumUpdate(w.apps, i, AppAfter(w.apps[i], id));
    case EnvPass(i, id) =>
      assert w.envs[i := w.envs[i]] == w.envs && !EnvConflict(w, i);
      EnvProgress(w.envs[i], w.apps, id);
      EnvSumUpdate(w.envs, w.apps, i, EnvAfter(w.envs[i], w.apps, id));
    case SitePass(i, id) =>
      assert w.sites[i := w.sites[i]] == w.sites;
      SiteProgress(w.sites[i], w.envs, w.apps, id);
      SiteSumUpdate(w.sites, w.envs, w.apps, i, SiteAfter(w.sites[i], w.envs, w.apps, id));
  }

  /** Some pass writes as long as there is a need; applications first, sites last. */
  lemma SomePassWrites(w: World) returns (p: Pass)
    requires AppSum(w.apps) > 0 || EnvSum(w.envs, w.apps) > 0 || SiteSum(w.sites, w.envs, w.apps) > 0
    ensures Fresh(p) && After(w, p) != w
    ensures p.EnvPass? ==> AppSum(w.apps) == 0
    ensures p.SitePass? ==> AppSum(w.apps) == 0 && EnvSum(w.envs, w.apps) == 0
  {
    if AppSum(w.apps) > 0 {
      var i := SomeAppNeeds(w.apps);
      NothingNeeded(w, i, "x");
      p := AppPass(i, "x");
      assert After(w, p).apps[i] != w.apps[i];
    } else if EnvSum(w.envs, w.apps) > 0 {
      var i := SomeEnvNeeds(w.envs, w.apps);
      NothingNeeded(w, i, "x");
      p := EnvPass(i, "x");
      assert After(w, p).envs[i] != w.envs[i];
    } else {
      var i := SomeSiteNeeds(w.sites, w.envs, w.apps);
      NothingNeeded(w, i, "x");
      p := SitePass(i, "x");
      assert After(w, p).sites[i] != w.sites[i];
    }
  }

  /** Without a conflict, applications, then environments, then sites come to rest. */
  lemma {:induction false} SomeRunSettles(w: World) returns (passes: seq<Pass>)
    requires !Conflicted(w)
    ensures AllFresh(passes) && Quiet(Run(w, passes))
    decreases AppSum(w.apps), EnvSum(w.envs, w.apps), SiteSum(w.sites, w.envs, w.apps)
  {
    if AppSum(w.apps) == 0 && EnvSum(w.envs, w.apps) == 0 && SiteSum(w.sites, w.envs, w.apps) == 0 {
      NothingLeft(w);
      passes := [];
    } else {
      var p := SomePassWrites(w);
      if p.SitePass? && SiteLinks(w, p.i) {
        SettledEnv(w, p.i);
      }
      NeedsFall(w, p);
      PassKeepsOutlook(w, p);
      SameOutlookSameConflicts(w, After(w, p));
      var rest := SomeRunSettles(After(w, p));
      passes := [p] + rest;
      assert passes[1..] == rest;
    }
  }

  ghost predicate SettlesIn(w: World, passes: seq<Pass>) {
    AllFresh(passes) && Quiet(Run(w, passes))
  }

  /** Labels can come to rest if and only if no environment's application bears the hash of another
      reference or an empty environment Id, and no site's environment hands down an empty site Id. */
  lemma SettlesIff(w: World)
    ensures (exists passes :: SettlesIn(w, passes)) <==> !Conflicted(w)
  {
    if Conflicted(w) {
      forall passes ensures !SettlesIn(w, passes) {
        ConflictNeverRests(w, passes);
      }
    } else {
      var passes := SomeRunSettles(w);
      assert SettlesIn(w, passes);
    }
  }

  // ---- Exactly when an Id can change ----

  function EnvId(w: World, i: nat): string
    requires i < |w.envs|
  {
    Label(w.envs[i].labels, ENVIRONMENT_ID)
  }

  /** The application that the environment links to bears another environment Id. */
  predicate EnvIdOverruled(w: World, i: nat)
    requires i < |w.envs|
  {
    && Linkable(w.envs[i], w.apps)
    && ENVIRONMENT_ID in w.apps[w.envs[i].parent].labels
    && w.apps[w.envs[i].parent].labels[ENVIRONMENT_ID] != EnvId(w, i)
  }

  lemma EnvIdPass(w: World, p: Pass, i: nat)
    requires i < |w.envs| && EnvId(w, i) != "" && !EnvIdOverruled(w, i)
    ensures var v := After(w, p); i < |v.envs| && EnvId(v, i) == EnvId(w, i) && !EnvIdOverruled(v, i)
  {
    KeysDiffer();
    match p
    case AppPass(j, id) => if j < |w.apps| { AppStays(w.apps[j], id); }
    case EnvPass(j, id) =>
      if j == i {
        LinkedMeaning(w.envs[i], w.apps);
        EnvStays(w.envs[i], w.apps, id);
      }
    case SitePass(_, _) =>
  }

  lemma {:induction false} EnvIdStays(w: World, passes: seq<Pass>, i: nat)
    requires i < |w.envs| && EnvId(w, i) != "" && !EnvIdOverruled(w, i)
    ensures i < |Run(w, passes).envs| && EnvId(Run(w, passes), i) == EnvId(w, i)
    decreases |passes|
  {
    if passes != [] {
      EnvIdPass(w, passes[0], i);
      EnvIdStays(After(w, passes[0]), passes[1..], i);
    }
  }

  lemma {:induction false} RunKeepsShape(w: World, passes: seq<Pass>)
    ensures var v := Run(w, passes); |v.apps| == |w.apps| && |v.envs| == |w.envs| && |v.sites| == |w.sites|
    decreases |passes|
  {
    if passes != [] {
      RunKeepsShape(After(w, passes[0]), passes[1..]);
    }
  }

  ghost predicate EnvIdChangesIn(w: World, passes: seq<Pass>, i: nat) {
    i < |w.envs| && AllFresh(passes) && i < |Run(w, passes).envs| && EnvId(Run(w, passes), i) != EnvId(w, i)
  }

  lemma RunOfTwo(w: World, p: Pass, q: Pass)
    ensures Run(w, [p, q]) == After(After(w, p), q)
  {
    assert [p, q][1..] == [q] && [q][1..] == [];
    assert Run(After(w, p), [q]) == Run(After(After(w, p), q), []);
  }

  lemma RunOfOne(w: World, p: Pass)
    ensures Run(w, [p]) == After(w, p)
  {
    assert [p][1..] == [];
  }

  lemma EnvIdOverwritten(w: World, i: nat)
    requires i < |w.envs| && EnvId(w, i) != "" && EnvIdOverruled(w, i)
    ensures EnvIdChangesIn(w, [EnvPass(i, "x")], i) || EnvIdChangesIn(w, [EnvPass(i, "x"), EnvPass(i, "x")], i)
  {
    var p, e := EnvPass(i, "x"), w.envs[i];
    KeysDiffer();
    RunOfOne(w, p);
    RunOfTwo(w, p, p);
    assert HasPrefix(ENVIRONMENT_ID, LABEL_PREFIX);
    LinkedMeaning(e, w.apps);
    LinkedMeaning(Hashed(e, GIT_REF), w.apps);
  }

  /** The Id of an environment can change if and only if it links to an application that bears
      another one. */
  lemma EnvIdChangesIff(w: World, i: nat)
    requires i < |w.envs| && EnvId(w, i) != ""
    ensures (exists passes :: EnvIdChangesIn(w, passes, i)) <==> EnvIdOverruled(w, i)
  {
    if EnvIdOverruled(w, i) {
      EnvIdOverwritten(w, i);
    } else {
      forall passes ensures !EnvIdChangesIn(w, passes, i) {
        EnvIdStays(w, passes, i);
      }
    }
  }

  function SiteId(w: World, s: nat): string
    requires s < |w.sites|
  {
    Label(w.sites[s].labels, SITE_ID)
  }

  /** The environment that the site links to bears another site Id, or is about to link to an
      application that does. */
  predicate SiteIdOverruled(w: World, s: nat)
    requires s < |w.sites|
  {
    && SiteLinks(w, s)
    && var e := w.envs[w.sites[s].parent];
       || (SITE_ID in e.labels && e.labels[SITE_ID] != SiteId(w, s))
       || (Inherited(e, w.apps).Some? && Inherited(e, w.apps).value != SiteId(w, s))
  }

  /** What an environment bears after a pass it bore before, or it comes from the application. */
  lemma EnvSiteLabel(e: Resource, apps: seq<Resource>, id: string)
    ensures var f := EnvAfter(e, apps, id);
            SITE_ID in f.labels ==>
              Some(f.labels[SITE_ID]) == Inherited(e, apps)
                || (SITE_ID in e.labels && f.labels[SITE_ID] == e.labels[SITE_ID])
  {
    KeysDiffer();
    LinkedMeaning(e, apps);
  }

  lemma SiteIdPass(w: World, p: Pass, s: nat)
    requires s < |w.sites| && SiteId(w, s) != "" && !SiteIdOverruled(w, s)
    ensures var v := After(w, p); s < |v.sites| && SiteId(v, s) == SiteId(w, s) && !SiteIdOverruled(v, s)
  {
    PassKeepsOutlook(w, p);
    match p
    case AppPass(_, _) =>
    case EnvPass(i, id) => if i < |w.envs| { EnvSiteLabel(w.envs[i], w.apps, id); }
    case SitePass(j, id) => if j == s { LinkedMeaning(w.sites[s], w.envs); }
  }

  lemma {:induction false} SiteIdStays(w: World, passes: seq<Pass>, s: nat)
    requires s < |w.sites| && SiteId(w, s) != "" && !SiteIdOverruled(w, s)
    ensures s < |Run(w, passes).sites| && SiteId(Run(w, passes), s) == SiteId(w, s)
    decreases |passes|
  {
    if passes != [] {
      SiteIdPass(w, passes[0], s);
      SiteIdStays(After(w, passes[0]), passes[1..], s);
    }
  }

  ghost predicate SiteIdChangesIn(w: World, passes: seq<Pass>, s: nat) {
    s < |w.sites| && AllFresh(passes) && s < |Run(w, passes).sites| && SiteId(Run(w, passes), s) != SiteId(w, s)
  }

  /** How far an environment's label passes have come: Id, git label, link. */
  function Reached(e: Resource): nat {
    if Label(e.labels, ENVIRONMENT_ID) == "" then 0 else if Hashed(e, GIT_REF) != e then 1 else 2
  }

  predicate Bears(e: Resource, v: string) {
    SITE_ID in e.labels && e.labels[SITE_ID] == v
  }

  lemma EnvStep(e: Resource, apps: seq<Resource>, id: string, v: string)
    requires id != "" && Linkable(e, apps) && SITE_ID in apps[e.parent].labels && apps[e.parent].labels[SITE_ID] == v
    ensures var f := EnvAfter(e, apps, id);
            && Linkable(f, apps) && f.parent == e.parent && (Bears(f, v) || Reached(f) > Reached(e))
            && (Bears(e, v) ==> Bears(f, v))
  {
    KeysDiffer();
    LinkedMeaning(e, apps);
    assert HasPrefix(SITE_ID, LABEL_PREFIX);
  }

  lemma SiteTakes(w: World, s: nat)
    requires SiteLinks(w, s) && SiteId(w, s) != "" && SITE_ID in w.envs[w.sites[s].parent].labels
    ensures SiteId(After(w, SitePass(s, "x")), s) == w.envs[w.sites[s].parent].labels[SITE_ID]
  {
    LinkedMeaning(w.sites[s], w.envs);
    assert HasPrefix(SITE_ID, LABEL_PREFIX);
  }

  /** Passes over an environment until it bears its application's site Id, and one over the site. */
  lemma {:induction false} SiteIdOverwritten(w: World, s: nat, v: string) returns (passes: seq<Pass>)
    requires SiteLinks(w, s) && SiteId(w, s) != ""
    requires Bears(w.envs[w.sites[s].parent], v) || Inherited(w.envs[w.sites[s].parent], w.apps) == Some(v)
    ensures AllFresh(passes) && s < |Run(w, passes).sites| && SiteId(Run(w, passes), s) == v
    decreases !Bears(w.envs[w.sites[s].parent], v), 2 - Reached(w.envs[w.sites[s].parent])
  {
    var i := w.sites[s].parent;
    if Bears(w.envs[i], v) {
      SiteTakes(w, s);
      RunOfOne(w, SitePass(s, "x"));
      passes := [SitePass(s, "x")];
    } else {
      EnvStep(w.envs[i], w.apps, "x", v);
      EnvStays(w.envs[i], w.apps, "x");
      var rest := SiteIdOverwritten(After(w, EnvPass(i, "x")), s, v);
      passes := [EnvPass(i, "x")] + rest;
      assert passes[1..] == rest;
    }
  }

  /** The Id of a site can change if and only if its environment bears another one, or links to an
      application that bears another one. */
  lemma SiteIdChangesIff(w: World, s: nat)
    requires s < |w.sites| && SiteId(w, s) != ""
    ensures (exists passes :: SiteIdChangesIn(w, passes, s)) <==> SiteIdOverruled(w, s)
  {
    if SiteIdOverruled(w, s) {
      var e := w.envs[w.sites[s].parent];
      var v := if SITE_ID in e.labels && e.labels[SITE_ID] != SiteId(w, s) then e.labels[SITE_ID]
               else Inherited(e, w.apps).value;
      var passes := SiteIdOverwritten(w, s, v);
      assert SiteIdChangesIn(w, passes, s);
    } else {
      forall passes ensures !SiteIdChangesIn(w, passes, s) {
        SiteIdStays(w, passes, s);
      }
    }
  }
}
