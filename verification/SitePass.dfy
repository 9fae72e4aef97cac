/** Whole passes over one Site, from reading it to returning: what a worker does when nothing
    else happens in between and its reads are current. */
module SitePass {
  import opened SiteTypes
  import opened SharedObject
  import opened Cluster
  import opened SiteWorker
  import opened SiteMachine

  /** Both caches of the shared objects have caught up. */
  function Current(c: Cluster): (d: Cluster)
    requires c.Valid()
    ensures d.Valid()
  {
    c.(domains := c.domains.Fresh(), credentials := c.credentials.Fresh())
  }

  /** The cluster at the end of a pass, and the stage that ended it. */
  datatype Finish = Finish(cluster: Cluster, last: Stage)

  /** The rest of a pass. */
  function Drive(c: Cluster, n: string, site: Site, stage: Stage, ch: Choice): (f: Finish)
    requires c.Valid()
    ensures f.cluster.Valid()
    decreases 27 - Rank(stage)
  {
    var r := Advance(c, n, site, stage, ch);
    if r.worker.Idle? then Finish(r.cluster, stage) else Drive(r.cluster, n, site, r.worker.stage, ch)
  }

  /** A pass over site `n` with the caches as they are. */
  function PassAsRead(c: Cluster, n: string, ch: Choice): (d: Cluster)
    requires c.Valid()
    ensures d.Valid()
  {
    match Begin(c, n)
    case Idle => c
    case Busy(site, stage) => Drive(c, n, site, stage, ch).cluster
  }

  /** The pass returns without an error and without asking for another one. */
  predicate ReturnsAsRead(c: Cluster, n: string, ch: Choice)
    requires c.Valid()
  {
    match Begin(c, n)
    case Idle => true
    case Busy(site, stage) => Drive(c, n, site, stage, ch).last == Return
  }

  /** The same with current caches. */
  function Pass(c: Cluster, n: string, ch: Choice): (d: Cluster)
    requires c.Valid()
    ensures d.Valid()
  {
    PassAsRead(Current(c), n, ch)
  }

  predicate Returns(c: Cluster, n: string, ch: Choice)
    requires c.Valid()
  {
    ReturnsAsRead(Current(c), n, ch)
  }

  // ---- One stage of the rest of a pass ----

  lemma DriveOn(c: Cluster, n: string, site: Site, stage: Stage, ch: Choice, d: Cluster, next: Stage)
    requires c.Valid() && Advance(c, n, site, stage, ch) == Next(d, site, next) && Rank(next) > Rank(stage) && d.Valid()
    ensures Drive(c, n, site, stage, ch) == Drive(d, n, site, next, ch)
  {
  }

  lemma DriveEnds(c: Cluster, n: string, site: Site, stage: Stage, ch: Choice, d: Cluster)
    requires c.Valid() && d.Valid() && Advance(c, n, site, stage, ch) == End(d)
    ensures Drive(c, n, site, stage, ch) == Finish(d, stage)
  {
  }

  // ---- A pass is a run of the machine, so that all that holds of runs holds of passes ----

  /** The steps that a worker takes to the end of its pass. */
  function Steps(c: Cluster, n: string, site: Site, stage: Stage, ch: Choice): seq<Event>
    requires c.Valid()
    decreases 27 - Rank(stage)
  {
    var r := Advance(c, n, site, stage, ch);
    [Proceed(n, ch)] + if r.worker.Idle? then [] else Steps(r.cluster, n, site, r.worker.stage, ch)
  }

  function Opening(c: Cluster, n: string): seq<Event>
    requires c.Valid()
  {
    [ObserveDomains(|c.domains.log| - 1), ObserveCredentials(|c.credentials.log| - 1), BeginPass(n)]
  }

  function Closing(c: Cluster, n: string, ch: Choice): seq<Event>
    requires c.Valid()
  {
    match Begin(c, n)
    case Idle => []
    case Busy(site, stage) => Steps(Current(c), n, site, stage, ch)
  }

  lemma {:induction false} DriveIsRun(s: State, n: string, site: Site, stage: Stage, ch: Choice)
    requires s.cluster.Valid() && s.WorkerOf(n) == Busy(site, stage)
    ensures var t := Run(s, Steps(s.cluster, n, site, stage, ch));
            t.cluster == Drive(s.cluster, n, site, stage, ch).cluster && t.WorkerOf(n).Idle?
    decreases 27 - Rank(stage)
  {
    var r := Advance(s.cluster, n, site, stage, ch);
    var t := After(s, Proceed(n, ch));
    assert t.cluster == r.cluster && t.WorkerOf(n) == r.worker;
    if r.worker.Idle? {
      assert Run(s, [Proceed(n, ch)]) == Run(t, []);
    } else {
      var rest := Steps(r.cluster, n, site, r.worker.stage, ch);
      DriveIsRun(t, n, site, r.worker.stage, ch);
      assert ([Proceed(n, ch)] + rest)[1..] == rest;
    }
  }

  lemma {:induction false} RunConcat(s: State, a: seq<Event>, b: seq<Event>)
    requires s.cluster.Valid()
    ensures Run(s, a + b) == Run(Run(s, a), b)
    decreases |a|
  {
    if a == [] {
      assert a + b == b;
    } else {
      RunConcat(After(s, a[0]), a[1..], b);
      assert (a + b)[0] == a[0] && (a + b)[1..] == a[1..] + b;
    }
  }

  lemma RunOfThree(s: State, a: Event, b: Event, e: Event)
    requires s.cluster.Valid()
    ensures Run(s, [a, b, e]) == After(After(After(s, a), b), e)
  {
    assert [e][1..] == [] && [b, e][1..] == [e] && [a, b, e][1..] == [b, e];
    assert Run(After(After(s, a), b), [e]) == After(After(After(s, a), b), e);
  }

  lemma CachesCatchUp(s: State)
    requires s.cluster.Valid()
    ensures var c := s.cluster;
            After(After(s, ObserveDomains(|c.domains.log| - 1)), ObserveCredentials(|c.credentials.log| - 1))
            == s.(cluster := Current(c))
  {
  }

  lemma OpeningIsRun(s: State, n: string, d: Event, k: Event, events: seq<Event>)
    requires s.cluster.Valid() && events == [d, k, BeginPass(n)]
    requires After(After(s, d), k) == s.(cluster := Current(s.cluster))
    ensures Run(s, events) == After(s.(cluster := Current(s.cluster)), BeginPass(n))
  {
    RunOfThree(s, d, k, BeginPass(n));
  }

  lemma BeginReached(s: State, n: string)
    requires s.cluster.Valid() && s.WorkerOf(n).Idle?
    ensures var t := After(s.(cluster := Current(s.cluster)), BeginPass(n));
            t.cluster == Current(s.cluster) && t.WorkerOf(n) == Begin(s.cluster, n)
  {
    assert Begin(Current(s.cluster), n) == Begin(s.cluster, n);
  }

  lemma OpeningReached(s: State, n: string)
    requires s.cluster.Valid() && s.WorkerOf(n).Idle?
    ensures var t := Run(s, Opening(s.cluster, n));
            t.cluster == Current(s.cluster) && t.WorkerOf(n) == Begin(s.cluster, n)
  {
    var events := Opening(s.cluster, n);
    CachesCatchUp(s);
    OpeningIsRun(s, n, events[0], events[1], events);
    BeginReached(s, n);
  }

  lemma RestIsRun(t: State, c: Cluster, n: string, ch: Choice)
    requires c.Valid() && t.cluster == Current(c) && t.WorkerOf(n) == Begin(c, n)
    ensures var u := Run(t, Closing(c, n, ch)); u.cluster == Pass(c, n, ch) && u.WorkerOf(n).Idle?
  {
    var w := Begin(c, n);
    if w.Busy? {
      DriveIsRun(t, n, w.site, w.stage, ch);
    }
  }

  /** A pass is a run of its worker's own steps with current reads. */
  lemma PassIsRun(s: State, n: string, ch: Choice)
    requires s.cluster.Valid() && s.WorkerOf(n).Idle?
    ensures var t := Run(s, Opening(s.cluster, n) + Closing(s.cluster, n, ch));
            t.cluster == Pass(s.cluster, n, ch) && t.WorkerOf(n).Idle?
  {
    RunConcat(s, Opening(s.cluster, n), Closing(s.cluster, n, ch));
    OpeningReached(s, n);
    RestIsRun(Run(s, Opening(s.cluster, n)), s.cluster, n, ch);
  }
}
