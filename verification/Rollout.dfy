/** Synchronising an existing Rollout with the desired specification
    (pkg/controller/drupalenvironment/drupal.go, syncDrupalRollout and syncResources). */
module Rollout {
  import opened Options

  /** A resource quantity: equal amounts can be written in different formats. */
  datatype Quantity = Quantity(amount: int, format: string)

  type ResourceList = map<string, Quantity>

  const CPU := "cpu"
  const MEMORY := "memory"

  datatype Resources = Resources(limits: ResourceList, requests: ResourceList)

  /** Everything of a container that the synchronisation does not touch is `rest`. */
  datatype Container = Container(
    name: string, image: string, pullPolicy: string, resources: Resources,
    readinessProbe: Option<string>, livenessProbe: Option<string>, rest: string)

  datatype RolloutSpec = RolloutSpec(strategy: string, initContainers: seq<Container>,
                                     containers: seq<Container>, rest: string)

  /** ResourceList.Cpu() and .Memory(): an absent entry reads as zero. */
  function Amount(list: ResourceList, resource: string): int {
    if resource in list then list[resource].amount else 0
  }

  predicate SameAmounts(a: ResourceList, b: ResourceList) {
    Amount(a, CPU) == Amount(b, CPU) && Amount(a, MEMORY) == Amount(b, MEMORY)
  }

  /** A list is replaced as a whole, and only when CPU or memory differ in amount. */
  function SyncedList(current: ResourceList, desired: ResourceList): (r: ResourceList)
    ensures SameAmounts(r, desired)
  {
    if SameAmounts(current, desired) then current else desired
  }

  function SyncedInit(c: Container, d: Container): Container {
    if c.name != d.name then c
    else c.(image := d.image, pullPolicy := d.pullPolicy,
            resources := Resources(SyncedList(c.resources.limits, d.resources.limits),
                                   SyncedList(c.resources.requests, d.resources.requests)))
  }

  function SyncedMain(c: Container, d: Container): Container {
    if c.name != d.name then c
    else SyncedInit(c, d).(readinessProbe := d.readinessProbe, livenessProbe := d.livenessProbe)
  }

  /** The init-container loop has no `break`: every desired container of the name is applied in turn. */
  function SyncAll(c: Container, desired: seq<Container>): (r: Container)
    ensures r.name == c.name && r.rest == c.rest
    ensures r.readinessProbe == c.readinessProbe && r.livenessProbe == c.livenessProbe
    decreases |desired|
  {
    if desired == [] then c else SyncAll(SyncedInit(c, desired[0]), desired[1..])
  }

  /** The container loop breaks at the first desired container of the name. */
  function SyncFirst(c: Container, desired: seq<Container>): (r: Container)
    ensures r.name == c.name && r.rest == c.rest
    decreases |desired|
  {
    if desired == [] then c
    else if desired[0].name == c.name then SyncedMain(c, desired[0])
    else SyncFirst(c, desired[1..])
  }

  /** The effect on a whole Rollout. */
  function Synced(rollout: RolloutSpec, spec: RolloutSpec): RolloutSpec {
    RolloutSpec(spec.strategy,
                seq(|rollout.initContainers|,
                    i requires 0 <= i < |rollout.initContainers| =>
                      SyncAll(rollout.initContainers[i], spec.initContainers)),
                seq(|rollout.containers|,
                    i requires 0 <= i < |rollout.containers| => SyncFirst(rollout.containers[i], spec.containers)),
                rollout.rest)
  }

  /** The specification has no container of this name. */
  ghost predicate Unnamed(c: Container, desired: seq<Container>) {
    forall d :: d in desired ==> d.name != c.name
  }

  lemma {:induction false} UnnamedIsKept(c: Container, desired: seq<Container>)
    requires Unnamed(c, desired)
    ensures SyncAll(c, desired) == c && SyncFirst(c, desired) == c
    decreases |desired|
  {
    if desired != [] {
      assert desired[0] in desired;
      UnnamedIsKept(c, desired[1..]);
    }
  }

  lemma SyncKeepsOthers(rollout: RolloutSpec, spec: RolloutSpec)
    ensures forall i :: 0 <= i < |rollout.containers| && Unnamed(rollout.containers[i], spec.containers) ==>
              Synced(rollout, spec).containers[i] == rollout.containers[i]
    ensures forall i :: 0 <= i < |rollout.initContainers| && Unnamed(rollout.initContainers[i], spec.initContainers) ==>
              Synced(rollout, spec).initContainers[i] == rollout.initContainers[i]
  {
    forall i | 0 <= i < |rollout.containers| && Unnamed(rollout.containers[i], spec.containers)
      ensures Synced(rollout, spec).containers[i] == rollout.containers[i]
    {
      UnnamedIsKept(rollout.containers[i], spec.containers);
    }
    forall i | 0 <= i < |rollout.initContainers| && Unnamed(rollout.initContainers[i], spec.initContainers)
      ensures Synced(rollout, spec).initContainers[i] == rollout.initContainers[i]
    {
      UnnamedIsKept(rollout.initContainers[i], spec.initContainers);
    }
  }

  // ---- The imperative form ----

  class LiveContainers {
    const cells: array<Container>

    constructor (containers: seq<Container>)
      ensures fresh(cells) && cells[..] == containers
    {
      cells := new Container[|containers|](i requires 0 <= i < |containers| => containers[i]);
    }

    /** syncResources on the container at `i`. */
    method SyncResources(i: nat, d: Resources)
      requires i < cells.Length
      modifies cells
      ensures cells[..] == old(cells[..])[i := old(cells[i]).(resources :=
                             Resources(SyncedList(old(cells[i]).resources.limits, d.limits),
                                       SyncedList(old(cells[i]).resources.requests, d.requests)))]
    {
      var rc := cells[i];
      if Amount(rc.resources.limits, CPU) != Amount(d.limits, CPU)
        || Amount(rc.resources.limits, MEMORY) != Amount(d.limits, MEMORY) {
        cells[i] := cells[i].(resources := cells[i].resources.(limits := d.limits));
      }
      if Amount(rc.resources.requests, CPU) != Amount(d.requests, CPU)
        || Amount(rc.resources.requests, MEMORY) != Amount(d.requests, MEMORY) {
        cells[i] := cells[i].(resources := cells[i].resources.(requests := d.requests));
      }
    }

    /** The loop over the init containers. */
    method SyncInitContainers(desired: seq<Container>)
      modifies cells
      ensures forall k :: 0 <= k < cells.Length ==> cells[k] == SyncAll(old(cells[k]), desired)
    {
      for ri := 0 to cells.Length
        invariant forall k :: 0 <= k < ri ==> cells[k] == SyncAll(old(cells[k]), desired)
        invariant forall k :: ri <= k < cells.Length ==> cells[k] == old(cells[k])
      {
        for si := 0 to |desired|
          invariant SyncAll(cells[ri], desired[si..]) == SyncAll(old(cells[ri]), desired)
          invariant forall k :: 0 <= k < cells.Length && k != ri ==>
                      cells[k] == if k < ri then SyncAll(old(cells[k]), desired) else old(cells[k])
        {
          var sc := desired[si];
          ghost var before := cells[ri];
          if cells[ri].name == sc.name {
            cells[ri] := cells[ri].(image := sc.image, pullPolicy := sc.pullPolicy);
            label copied:
            SyncResources(ri, sc.resources);
            assert cells[ri] == cells[..][ri];
            assert forall k :: 0 <= k < cells.Length && k != ri ==> cells[..][k] == old@copied(cells[..])[k];
          }
          assert cells[ri] == SyncedInit(before, sc);
          assert desired[si..][1..] == desired[si + 1..];
        }
        assert desired[|desired|..] == [];
      }
    }

    /** The loop over the main containers. */
    method SyncContainers(desired: seq<Container>)
      modifies cells
      ensures forall k :: 0 <= k < cells.Length ==> cells[k] == SyncFirst(old(cells[k]), desired)
    {
      for ri := 0 to cells.Length
        invariant forall k :: 0 <= k < ri ==> cells[k] == SyncFirst(old(cells[k]), desired)
        invariant forall k :: ri <= k < cells.Length ==> cells[k] == old(cells[k])
      {
        var si := 0;
        while si < |desired|
          invariant 0 <= si <= |desired| && cells[ri] == old(cells[ri])
          invariant SyncFirst(cells[ri], desired[si..]) == SyncFirst(cells[ri], desired)
          invariant forall k :: 0 <= k < cells.Length && k != ri ==>
                      cells[k] == if k < ri then SyncFirst(old(cells[k]), desired) else old(cells[k])
        {
          var sc := desired[si];
          assert desired[si..][1..] == desired[si + 1..];
          if cells[ri].name == sc.name {
            ghost var before := cells[ri];
            cells[ri] := cells[ri].(image := sc.image, pullPolicy := sc.pullPolicy);
            label copied:
            SyncResources(ri, sc.resources);
            assert cells[ri] == cells[..][ri];
            assert forall k :: 0 <= k < cells.Length && k != ri ==> cells[..][k] == old@copied(cells[..])[k];
            cells[ri] := cells[ri].(readinessProbe := sc.readinessProbe, livenessProbe := sc.livenessProbe);
            assert cells[ri] == SyncedMain(before, sc);
            break;
          }
          si := si + 1;
        }
        assert desired[|desired|..] == [];
      }
    }
  }

  /** syncDrupalRollout: the strategy is copied and both container lists are synced in place. */
  method SyncDrupalRollout(rollout: RolloutSpec, spec: RolloutSpec) returns (r: RolloutSpec)
    ensures r == Synced(rollout, spec)
    ensures r.strategy == spec.strategy && r.rest == rollout.rest
    ensures |r.containers| == |rollout.containers| && |r.initContainers| == |rollout.initContainers|
    ensures forall i :: 0 <= i < |r.containers| && Unnamed(rollout.containers[i], spec.containers) ==>
              r.containers[i] == rollout.containers[i]
    ensures forall i :: 0 <= i < |r.initContainers| && Unnamed(rollout.initContainers[i], spec.initContainers) ==>
              r.initContainers[i] == rollout.initContainers[i]
  {
    SyncKeepsOthers(rollout, spec);
    var inits := new LiveContainers(rollout.initContainers);
    var mains := new LiveContainers(rollout.containers);
    ghost var i, m := inits.cells[..], mains.cells[..];
    assert forall k :: 0 <= k < |i| ==> inits.cells[k] == i[k];
    assert forall k :: 0 <= k < |m| ==> mains.cells[k] == m[k];
    inits.SyncInitContainers(spec.initContainers);
    mains.SyncContainers(spec.containers);
    r := RolloutSpec(spec.strategy, inits.cells[..], mains.cells[..], rollout.rest);
  }

  // ---- Idempotence ----

  /** Applying a chain of replacements to one resource list. */
  function Chain(x: ResourceList, lists: seq<ResourceList>): ResourceList
    decreases |lists|
  {
    if lists == [] then x else Chain(SyncedList(x, lists[0]), lists[1..])
  }

  predicate AllAgree(lists: seq<ResourceList>)
    decreases |lists|
  {
    |lists| <= 1 || (SameAmounts(lists[0], lists[1]) && AllAgree(lists[1..]))
  }

  /** When the lists agree in amounts, a start that agrees too is left alone and any other start
      becomes the first list. */
  lemma {:induction false} ChainOfAgreeing(x: ResourceList, lists: seq<ResourceList>)
    requires lists != [] && AllAgree(lists)
    ensures Chain(x, lists) == SyncedList(x, lists[0])
    decreases |lists|
  {
    if |lists| > 1 {
      ChainOfAgreeing(SyncedList(x, lists[0]), lists[1..]);
    }
  }

  /** Otherwise the result does not depend on the start. */
  lemma {:induction false} ChainOfDiffering(x: ResourceList, y: ResourceList, lists: seq<ResourceList>)
    requires !AllAgree(lists)
    ensures Chain(x, lists) == Chain(y, lists)
    decreases |lists|
  {
    if AllAgree(lists[1..]) {
      ChainOfAgreeing(SyncedList(x, lists[0]), lists[1..]);
      ChainOfAgreeing(SyncedList(y, lists[0]), lists[1..]);
    } else {
      ChainOfDiffering(SyncedList(x, lists[0]), SyncedList(y, lists[0]), lists[1..]);
    }
  }

  lemma ChainIdempotent(x: ResourceList, lists: seq<ResourceList>)
    ensures Chain(Chain(x, lists), lists) == Chain(x, lists)
  {
    if !AllAgree(lists) {
      ChainOfDiffering(Chain(x, lists), x, lists);
    } else if lists != [] {
      ChainOfAgreeing(x, lists);
      ChainOfAgreeing(Chain(x, lists), lists);
    }
  }

  lemma ChainUnfold(x: ResourceList, first: ResourceList, rest: seq<ResourceList>)
    ensures Chain(x, [first] + rest) == Chain(SyncedList(x, first), rest)
  {
    assert ([first] + rest)[1..] == rest;
  }

  function LimitsOf(name: string, desired: seq<Container>): seq<ResourceList> {
    if desired == [] then []
    else if desired[0].name == name then [desired[0].resources.limits] + LimitsOf(name, desired[1..])
    else LimitsOf(name, desired[1..])
  }

  function RequestsOf(name: string, desired: seq<Container>): seq<ResourceList> {
    if desired == [] then []
    else if desired[0].name == name then [desired[0].resources.requests] + RequestsOf(name, desired[1..])
    else RequestsOf(name, desired[1..])
  }

  /** The last desired container of the name decides the image. */
  function LastNamed(name: string, desired: seq<Container>): (r: Option<Container>)
    ensures r.Some? ==> r.value in desired && r.value.name == name
    ensures r.None? ==> forall d :: d in desired ==> d.name != name
  {
    if desired == [] then None
    else
      var last := LastNamed(name, desired[1..]);
      if last.Some? then last
      else if desired[0].name == name then Some(desired[0]) else None
  }

  /** The init loop in closed form: image from the last namesake, resource lists by the two chains. */
  lemma {:induction false} SyncAllClosedForm(c: Container, desired: seq<Container>)
    ensures var r := SyncAll(c, desired);
            && r.resources == Resources(Chain(c.resources.limits, LimitsOf(c.name, desired)),
                                        Chain(c.resources.requests, RequestsOf(c.name, desired)))
            && (match LastNamed(c.name, desired)
                case None => r.image == c.image && r.pullPolicy == c.pullPolicy
                case Some(d) => r.image == d.image && r.pullPolicy == d.pullPolicy)
    decreases |desired|
  {
    if desired != [] {
      SyncAllClosedForm(SyncedInit(c, desired[0]), desired[1..]);
      if desired[0].name == c.name {
        ChainUnfold(c.resources.limits, desired[0].resources.limits, LimitsOf(c.name, desired[1..]));
        ChainUnfold(c.resources.requests, desired[0].resources.requests, RequestsOf(c.name, desired[1..]));
      }
    }
  }

  lemma SyncAllIdempotent(c: Container, desired: seq<Container>)
    ensures SyncAll(SyncAll(c, desired), desired) == SyncAll(c, desired)
  {
    var r := SyncAll(c, desired);
    SyncAllClosedForm(c, desired);
    SyncAllClosedForm(r, desired);
    ChainIdempotent(c.resources.limits, LimitsOf(c.name, desired));
    ChainIdempotent(c.resources.requests, RequestsOf(c.name, desired));
  }

  lemma {:induction false} SyncFirstIdempotent(c: Container, desired: seq<Container>)
    ensures SyncFirst(SyncFirst(c, desired), desired) == SyncFirst(c, desired)
    decreases |desired|
  {
    if desired != [] && desired[0].name != c.name {
      SyncFirstIdempotent(c, desired[1..]);
    }
  }

  /** Synchronising twice is synchronising once, for every rollout and every specification, even
      with repeated names. */
  lemma SyncIsIdempotent(rollout: RolloutSpec, spec: RolloutSpec)
    ensures Synced(Synced(rollout, spec), spec) == Synced(rollout, spec)
  {
    var once := Synced(rollout, spec);
    var twice := Synced(once, spec);
    forall i | 0 <= i < |rollout.initContainers| ensures twice.initContainers[i] == once.initContainers[i] {
      SyncAllIdempotent(rollout.initContainers[i], spec.initContainers);
    }
    forall i | 0 <= i < |rollout.containers| ensures twice.containers[i] == once.containers[i] {
      SyncFirstIdempotent(rollout.containers[i], spec.containers);
    }
  }

  /** Count, order, names and the untouched fields survive; init containers keep their probes. */
  lemma SyncKeepsShape(rollout: RolloutSpec, spec: RolloutSpec)
    ensures var r := Synced(rollout, spec);
            && r.rest == rollout.rest
            && |r.initContainers| == |rollout.initContainers| && |r.containers| == |rollout.containers|
            && (forall i :: 0 <= i < |r.initContainers| ==>
                  var c, d := rollout.initContainers[i], r.initContainers[i];
                  d.name == c.name && d.rest == c.rest && d.readinessProbe == c.readinessProbe
                    && d.livenessProbe == c.livenessProbe)
            && (forall i :: 0 <= i < |r.containers| ==>
                  r.containers[i].name == rollout.containers[i].name
                    && r.containers[i].rest == rollout.containers[i].rest)
  {
  }

  // ---- Refinement of the map-lookup merge ----

  ghost predicate UniqueNames(desired: seq<Container>) {
    forall i, j :: 0 <= i < j < |desired| ==> desired[i].name != desired[j].name
  }

  /** The first desired container of each name. */
  function ByName(desired: seq<Container>): map<string, Container> {
    if desired == [] then map[] else ByName(desired[1..])[desired[0].name := desired[0]]
  }

  lemma {:induction false} ByNameMembers(desired: seq<Container>)
    ensures forall n :: n in ByName(desired) ==> ByName(desired)[n] in desired && ByName(desired)[n].name == n
    ensures forall d :: d in desired ==> d.name in ByName(desired)
    ensures UniqueNames(desired) ==> forall d :: d in desired ==> ByName(desired)[d.name] == d
  {
    if desired != [] {
      ByNameMembers(desired[1..]);
      assert desired == [desired[0]] + desired[1..];
      if UniqueNames(desired) {
        assert UniqueNames(desired[1..]);
        assert forall d :: d in desired[1..] ==> d.name != desired[0].name;
      }
    }
  }

  /** The container loop is a lookup of the name, whatever the specification. */
  lemma {:induction false} SyncFirstIsLookup(c: Container, desired: seq<Container>)
    ensures SyncFirst(c, desired) == if c.name in ByName(desired) then SyncedMain(c, ByName(desired)[c.name]) else c
    decreases |desired|
  {
    if desired != [] && desired[0].name != c.name {
      SyncFirstIsLookup(c, desired[1..]);
    }
  }

  /** The init loop is the same lookup when the desired names are distinct. */
  lemma {:induction false} SyncAllIsLookup(c: Container, desired: seq<Container>)
    requires UniqueNames(desired)
    ensures SyncAll(c, desired) == if c.name in ByName(desired) then SyncedInit(c, ByName(desired)[c.name]) else c
    decreases |desired|
  {
    if desired != [] {
      assert UniqueNames(desired[1..]);
      SyncAllIsLookup(SyncedInit(c, desired[0]), desired[1..]);
      ByNameMembers(desired[1..]);
      assert forall d :: d in desired[1..] ==> d.name != desired[0].name;
    }
  }

  /** On repeated names the init loop takes the image and pull policy of the last namesake and the
      container loop those of the first, so that the two agree exactly if these two containers do. */
  lemma LoopsAgreeIff(c: Container, desired: seq<Container>)
    ensures LastNamed(c.name, desired).Some? <==> c.name in ByName(desired)
    ensures var a, f := SyncAll(c, desired), SyncFirst(c, desired);
            a.image == f.image && a.pullPolicy == f.pullPolicy <==>
              match LastNamed(c.name, desired)
              case None => true
              case Some(last) =>
                var first := ByName(desired)[c.name];
                last.image == first.image && last.pullPolicy == first.pullPolicy
  {
    ByNameMembers(desired);
    SyncAllClosedForm(c, desired);
    SyncFirstIsLookup(c, desired);
  }

  /** The two amounts that are compared. */
  function CpuAndMemory(list: ResourceList): (int, int) {
    (if "cpu" in list then list["cpu"].amount else 0, if "memory" in list then list["memory"].amount else 0)
  }

  /** A list stays as it is written if both amounts are right, and is replaced as a whole otherwise. */
  predicate Takes(live: ResourceList, desired: ResourceList, synced: ResourceList) {
    synced == if CpuAndMemory(live) == CpuAndMemory(desired) then live else desired
  }

  /** A container after the sync with its desired namesake. */
  predicate Matches(live: Container, d: Container, synced: Container) {
    && synced.image == d.image && synced.pullPolicy == d.pullPolicy
    && Takes(live.resources.limits, d.resources.limits, synced.resources.limits)
    && Takes(live.resources.requests, d.resources.requests, synced.resources.requests)
  }

  lemma InitMatches(c: Container, desired: seq<Container>, d: Container)
    requires UniqueNames(desired) && d in desired && c.name == d.name
    ensures Matches(c, d, SyncAll(c, desired))
  {
    ByNameMembers(desired);
    SyncAllIsLookup(c, desired);
  }

  lemma MainMatches(c: Container, desired: seq<Container>, d: Container)
    requires UniqueNames(desired) && d in desired && c.name == d.name
    ensures var r := SyncFirst(c, desired);
            Matches(c, d, r) && r.readinessProbe == d.readinessProbe && r.livenessProbe == d.livenessProbe
  {
    ByNameMembers(desired);
    SyncFirstIsLookup(c, desired);
  }

  /** After a sync the strategy is the desired one, and a container without a desired namesake is as
      it was.  With distinct desired names, every container that has one has its image and amounts
      and, for main containers, its probes. */
  lemma SyncedMatchesSpec(rollout: RolloutSpec, spec: RolloutSpec, i: nat, d: Container)
    ensures Synced(rollout, spec).strategy == spec.strategy && Synced(rollout, spec).rest == rollout.rest
    ensures i < |rollout.initContainers| && Unnamed(rollout.initContainers[i], spec.initContainers) ==>
              Synced(rollout, spec).initContainers[i] == rollout.initContainers[i]
    ensures i < |rollout.containers| && Unnamed(rollout.containers[i], spec.containers) ==>
              Synced(rollout, spec).containers[i] == rollout.containers[i]
    ensures UniqueNames(spec.initContainers) && d in spec.initContainers && i < |rollout.initContainers| ==>
              rollout.initContainers[i].name == d.name ==>
                Matches(rollout.initContainers[i], d, Synced(rollout, spec).initContainers[i])
    ensures UniqueNames(spec.containers) && d in spec.containers && i < |rollout.containers| ==>
              rollout.containers[i].name == d.name ==>
                var r := Synced(rollout, spec).containers[i];
                && Matches(rollout.containers[i], d, r)
                && r.readinessProbe == d.readinessProbe && r.livenessProbe == d.livenessProbe
  {
    SyncKeepsOthers(rollout, spec);
    if UniqueNames(spec.initContainers) && d in spec.initContainers && i < |rollout.initContainers| {
      if rollout.initContainers[i].name == d.name {
        InitMatches(rollout.initContainers[i], spec.initContainers, d);
      }
    }
    if UniqueNames(spec.containers) && d in spec.containers && i < |rollout.containers| {
      if rollout.containers[i].name == d.name {
        MainMatches(rollout.containers[i], spec.containers, d);
      }
    }
  }
}
