/** PersistentVolumes under static provisioning: created for an environment only behind its
    finalizer, and marked for deletion before the finalizer goes
    (pkg/controller/drupalenvironment/drupalenvironment_controller.go, drupal.go). */
module Volumes {
  import opened Options
  import opened Maps
  import opened SiteTypes
  import opened Finalizers
  import opened Environment

  /** Environments by name with the objects of their namespaces; volumes by environment Id; `ids` is
      the history of which environment each Id was given to. */
  datatype World = World(
    envs: map<string, Env>, objects: map<string, Objects>, volumes: map<string, Volume>,
    apps: map<string, Option<Labels>>, ids: map<string, string>, host: string)

  const NO_OBJECTS := Objects(false, false, map[], {}, None, false, None, false, None, {}, None)

  function SceneOf(w: World, n: string): Scene
    requires n in w.envs
  {
    var app := if n in w.apps then w.apps[n] else None;
    var objects := if n in w.objects then w.objects[n] else NO_OBJECTS;
    Scene(w.envs[n], app, w.volumes, objects, w.host, true)
  }

  /** The API server drops an object that is being deleted once it has no finalizer. */
  function PutEnv(w: World, n: string, env: Env): World {
    if env.deleting && env.finalizers == [] then w.(envs := w.envs - {n}) else w.(envs := w.envs[n := env])
  }

  predicate VolumeLive(w: World, id: string) {
    id in w.volumes && !w.volumes[id].deleting
  }

  /** What a pass over one environment makes of the world. */
  function PassOver(w: World, n: string, id: string): World
    requires n in w.envs
  {
    var t := Pass(SceneOf(w, n), id).scene;
    PutEnv(w, n, t.env).(volumes := t.volumes, objects := w.objects[n := t.objects],
      ids := if w.envs[n].Id() == "" then w.ids[id := n] else w.ids)
  }

  datatype Event =
    | PassOn(n: string, id: string)
    | CreateEnv(n: string, env: Env)
    | DeleteEnv(n: string)
    | EditEnv(n: string, env: Env)
    | DeleteVolume(id: string)                 // by anyone
    | VolumeGone(id: string)                   // a marked volume disappears
    | SetApp(n: string, app: Option<Labels>)
    | Disturb(n: string, objects: Objects)

  predicate MayCreate(w: World, n: string, env: Env) {
    n !in w.envs && !env.deleting && env.Id() !in w.ids
  }

  predicate MayEdit(w: World, n: string, env: Env) {
    n in w.envs && env.Id() == w.envs[n].Id() && env.deleting == w.envs[n].deleting
      && env.Protected() == w.envs[n].Protected()
  }

  function After(w: World, e: Event): World {
    match e
    case PassOn(n, id) => if n in w.envs && id != "" && id !in w.ids then PassOver(w, n, id) else w
    case CreateEnv(n, env) =>
      if !MayCreate(w, n, env) then w
      else w.(envs := w.envs[n := env], ids := if env.Id() == "" then w.ids else w.ids[env.Id() := n])
    case DeleteEnv(n) => if n in w.envs then PutEnv(w, n, w.envs[n].(deleting := true)) else w
    case EditEnv(n, env) => if MayEdit(w, n, env) then PutEnv(w, n, env) else w
    case DeleteVolume(id) =>
      if id in w.volumes then w.(volumes := w.volumes[id := w.volumes[id].(deleting := true)]) else w
    case VolumeGone(id) => if id in w.volumes && w.volumes[id].deleting then w.(volumes := w.volumes - {id}) else w
    case SetApp(n, app) => if app.Some? && ENVIRONMENT_ID in app.value then w else w.(apps := w.apps[n := app])
    case Disturb(n, objects) => w.(objects := w.objects[n := objects])
  }

  function Run(w: World, events: seq<Event>): World
    decreases |events|
  {
    if events == [] then w else Run(After(w, events[0]), events[1..])
  }

  // ---- The invariant ----

  /** The environment that a volume belongs to exists and carries the finalizer. */
  predicate Kept(w: World, id: string) {
    id in w.ids && w.ids[id] in w.envs && w.envs[w.ids[id]].Id() == id && w.envs[w.ids[id]].Protected()
  }

  predicate IdRecorded(w: World, n: string)
    requires n in w.envs
  {
    w.envs[n].Id() != "" ==> w.envs[n].Id() in w.ids && w.ids[w.envs[n].Id()] == n
  }

  ghost predicate Inv(w: World) {
    && "" !in w.ids
    && (forall n :: n in w.envs ==> IdRecorded(w, n))
    && (forall n :: n in w.apps && w.apps[n].Some? ==> ENVIRONMENT_ID !in w.apps[n].value)
    && (forall id :: VolumeLive(w, id) ==> Kept(w, id))
  }

  /** What a pass does to the environment and the volumes: it keeps an Id and the finalizer, and
      touches at most its own volume, behind both. */
  lemma {:induction false} WalkVolumes(s: Scene, i: nat, id: string)
    requires s.app.Some? ==> ENVIRONMENT_ID !in s.app.value
    requires i <= NEEDS && id != "" && (i >= 1 ==> s.env.Id() != "") && (i >= 2 ==> s.env.Protected())
    ensures var t := Walk(s, i, id).scene;
            && t.env.deleting == s.env.deleting && t.env.Id() == (if s.env.Id() == "" then id else s.env.Id())
            && (s.env.Protected() ==> t.env.Protected())
            && (t.volumes == s.volumes || (t.env.Protected() && s.env.Id() != ""
                                           && t.volumes - {t.env.Id()} == s.volumes - {t.env.Id()}))
    decreases NEEDS - i
  {
    if i < NEEDS {
      if Met(s, At(i)) {
        WalkVolumes(s, i + 1, id);
      } else {
        FixVolumes(s, At(i), id);
        if GoesOn(s, At(i)) {
          WalkVolumes(Fix(s, At(i), id), i + 1, id);
        }
      }
    }
  }

  lemma FixVolumes(s: Scene, need: Need, id: string)
    requires s.app.Some? ==> ENVIRONMENT_ID !in s.app.value
    requires id != "" && (need == Id ==> s.env.Id() == "") && (Rank(need) >= 1 ==> s.env.Id() != "")
             && (Rank(need) >= 2 ==> s.env.Protected())
    ensures var t := Fix(s, need, id);
            && t.env.deleting == s.env.deleting && t.app == s.app
            && t.env.Id() == (if s.env.Id() == "" then id else s.env.Id())
            && (s.env.Protected() ==> t.env.Protected())
            && (t.volumes == s.volumes || (need.PersistentVolume?
                                           && t.volumes - {t.env.Id()} == s.volumes - {t.env.Id()}))
            && (GoesOn(s, need) ==> t.env == s.env && t.volumes == s.volumes)
  {
    if need.Link? && s.app.Some? {
      LinkStays(s);
    }
    if need.PersistentVolume? {
      assert Fix(s, need, id).volumes - {s.env.Id()} == s.volumes - {s.env.Id()};
    }
  }

  // ---- Every event keeps it ----

  lemma WalkKeepsInv(w: World, n: string, id: string)
    requires Inv(w) && n in w.envs && id != "" && id !in w.ids && !(w.envs[n].deleting && w.envs[n].Id() != "")
    ensures Inv(PassOver(w, n, id))
  {
    var s, v := SceneOf(w, n), PassOver(w, n, id);
    var env := Walk(s, 0, id).scene.env;
    WalkVolumes(s, 0, id);
    forall x | VolumeLive(v, x) ensures Kept(v, x) {
      if x == env.Id() && v.volumes != w.volumes {
        assert IdRecorded(w, n);
      } else {
        if v.volumes != w.volumes {
          SameOutside(w.volumes, v.volumes, env.Id(), x);
        }
        assert VolumeLive(w, x) && Kept(w, x);
      }
    }
    forall m | m in v.envs ensures IdRecorded(v, m) {
      assert IdRecorded(w, m);
    }
  }

  /** Storing an environment with the Id it had, or with a fresh one. */
  lemma PutEnvKeepsInv(w: World, n: string, env: Env)
    requires Inv(w) && n in w.envs && env.Id() == w.envs[n].Id()
    requires VolumeLive(w, env.Id()) && w.envs[n].Protected() ==> env.Protected()
    ensures Inv(PutEnv(w, n, env))
  {
    var v := PutEnv(w, n, env);
    forall x | VolumeLive(v, x) ensures Kept(v, x) {
      assert VolumeLive(w, x) && Kept(w, x);
    }
    forall m | m in v.envs ensures IdRecorded(v, m) {
      assert IdRecorded(w, m);
    }
  }

  lemma NewIdKeepsInv(w: World, n: string, env: Env, id: string)
    requires Inv(w) && id != "" && id !in w.ids && (n in w.envs ==> w.envs[n].Id() == "") && env.Id() == id
    ensures Inv(PutEnv(w, n, env).(ids := w.ids[id := n]))
  {
    var v := PutEnv(w, n, env).(ids := w.ids[id := n]);
    forall x | VolumeLive(v, x) ensures Kept(v, x) {
      assert VolumeLive(w, x) && Kept(w, x);
    }
    forall m | m in v.envs ensures IdRecorded(v, m) {
      assert m != n ==> IdRecorded(w, m);
    }
  }

  /** What the deletion branch makes of the world: the volume marked, or the finalizer gone. */
  lemma DeletionPass(w: World, n: string, id: string)
    requires n in w.envs && w.envs[n].deleting && w.envs[n].Id() != ""
    ensures var v, env := PassOver(w, n, id), w.envs[n];
            && v.ids == w.ids && v.apps == w.apps
            && (if VolumeLive(w, env.Id())
                then v.volumes == w.volumes[env.Id() := w.volumes[env.Id()].(deleting := true)]
                     && v.envs == PutEnv(w, n, env).envs
                else v.volumes == w.volumes
                     && v.envs == PutEnv(w, n, env.(finalizers := Without(env.finalizers, ENV_FINALIZER))).envs)
  {
    var s := SceneOf(w, n);
    assert VolumeStands(s) <==> VolumeLive(w, w.envs[n].Id());
    assert Pass(s, id).scene == Finalized(s);
  }

  /** The deletion branch leaves no live volume of its environment's Id. */
  lemma FinalizedKeepsInv(w: World, n: string, id: string)
    requires Inv(w) && n in w.envs && w.envs[n].deleting && w.envs[n].Id() != ""
    ensures Inv(PassOver(w, n, id))
  {
    var v := PassOver(w, n, id);
    DeletionPass(w, n, id);
    forall x | VolumeLive(v, x) ensures Kept(v, x) {
      assert VolumeLive(w, x) && Kept(w, x) && x != w.envs[n].Id();
    }
    forall m | m in v.envs ensures IdRecorded(v, m) {
      assert IdRecorded(w, m);
    }
  }

  lemma VolumeEventKeepsInv(w: World, e: Event)
    requires Inv(w) && (e.DeleteVolume? || e.VolumeGone?)
    ensures Inv(After(w, e))
  {
    var v := After(w, e);
    forall x | VolumeLive(v, x) ensures Kept(v, x) {
      assert VolumeLive(w, x) && Kept(w, x);
    }
    forall m | m in v.envs ensures IdRecorded(v, m) {
      assert IdRecorded(w, m);
    }
  }

  lemma PassKeepsInv(w: World, n: string, id: string)
    requires Inv(w) && n in w.envs && id != "" && id !in w.ids
    ensures Inv(PassOver(w, n, id))
  {
    if w.envs[n].deleting && w.envs[n].Id() != "" {
      FinalizedKeepsInv(w, n, id);
    } else {
      WalkKeepsInv(w, n, id);
    }
  }

  lemma CreateKeepsInv(w: World, n: string, env: Env)
    requires Inv(w) && MayCreate(w, n, env)
    ensures Inv(After(w, CreateEnv(n, env)))
  {
    if env.Id() != "" {
      NewIdKeepsInv(w, n, env, env.Id());
    } else {
      var v := After(w, CreateEnv(n, env));
      forall x | VolumeLive(v, x) ensures Kept(v, x) {
        assert VolumeLive(w, x) && Kept(w, x);
      }
      forall m | m in v.envs ensures IdRecorded(v, m) {
        assert m != n ==> IdRecorded(w, m);
      }
    }
  }

  lemma SurroundingsKeepInv(w: World, v: World)
    requires Inv(w) && v == w.(apps := v.apps, objects := v.objects)
    requires forall n :: n in v.apps && v.apps[n].Some? ==> ENVIRONMENT_ID !in v.apps[n].value
    ensures Inv(v)
  {
    forall x | VolumeLive(v, x) ensures Kept(v, x) {
      assert VolumeLive(w, x) && Kept(w, x);
    }
    forall m | m in v.envs ensures IdRecorded(v, m) {
      assert IdRecorded(w, m);
    }
  }

  lemma EventKeepsInv(w: World, e: Event)
    requires Inv(w)
    ensures Inv(After(w, e))
  {
    match e
    case PassOn(n, id) => if n in w.envs && id != "" && id !in w.ids { PassKeepsInv(w, n, id); }
    case CreateEnv(n, env) => if MayCreate(w, n, env) { CreateKeepsInv(w, n, env); }
    case DeleteEnv(n) => if n in w.envs { PutEnvKeepsInv(w, n, w.envs[n].(deleting := true)); }
    case EditEnv(n, env) => if MayEdit(w, n, env) { PutEnvKeepsInv(w, n, env); }
    case DeleteVolume(id) => VolumeEventKeepsInv(w, e);
    case VolumeGone(id) => VolumeEventKeepsInv(w, e);
    case SetApp(n, app) => SurroundingsKeepInv(w, After(w, e));
    case Disturb(n, objects) => SurroundingsKeepInv(w, After(w, e));
  }

  lemma {:induction false} RunKeepsInv(w: World, events: seq<Event>)
    requires Inv(w)
    ensures Inv(Run(w, events))
    decreases |events|
  {
    if events != [] {
      EventKeepsInv(w, events[0]);
      RunKeepsInv(After(w, events[0]), events[1..]);
    }
  }

  /** Nothing exists yet. */
  predicate Initial(w: World) {
    w.envs == map[] && w.volumes == map[] && w.ids == map[] && w.apps == map[]
  }

  /** In every run, a volume that is not marked for deletion belongs to an environment that exists
      and carries the cleanup finalizer. */
  lemma VolumeSafety(w: World, events: seq<Event>, id: string)
    requires Initial(w)
    ensures var v := Run(w, events);
            VolumeLive(v, id) ==> exists n :: n in v.envs && v.envs[n].Id() == id && v.envs[n].Protected()
  {
    RunKeepsInv(w, events);
    var v := Run(w, events);
    if VolumeLive(v, id) {
      assert Kept(v, id);
    }
  }

  lemma IdPass(w: World, n: string, id: string)
    requires n in w.envs && w.envs[n].Id() == ""
    ensures var v, env := PassOver(w, n, id), w.envs[n];
            && v.envs == PutEnv(w, n, env.(labels := env.labels[ENVIRONMENT_ID := id])).envs
            && v.volumes == w.volumes
  {
    var s := SceneOf(w, n);
    assert At(0) == Id && !Met(s, Id);
    assert Pass(s, id).scene == Fix(s, Id, id);
  }

  /** Two passes finish the deletion of an environment with an Id: the first marks the volume, the
      second releases the environment.  Without an Id, a pass before them assigns one. */
  lemma DeletionTakesTwoPasses(w: World, n: string, id: string)
    requires n in w.envs && w.envs[n].deleting && w.envs[n].Protected()
    ensures var v, own := PassOver(w, n, id), w.envs[n].Id();
            if own == "" then n in v.envs && v.envs[n].Id() == id && v.envs[n].Protected() && v.volumes == w.volumes
            else if VolumeLive(w, own) then v.envs == w.envs && !VolumeLive(v, own)
            else v.volumes == w.volumes && (n in v.envs ==> !v.envs[n].Protected())
  {
    WithoutMembers(w.envs[n].finalizers, ENV_FINALIZER);
    if w.envs[n].Id() != "" {
      DeletionPass(w, n, id);
      assert w.envs[n := w.envs[n]] == w.envs;
    } else {
      IdPass(w, n, id);
    }
  }
}
