/** The application controller: Id, git label, and a status that lists the application's
    environments by name (pkg/controller/drupalapplication/drupalapplication_controller.go). */
module Application {
  import opened Options
  import opened SiteTypes

  datatype EnvObject = EnvObject(name: string, namespace: string, uid: string, labels: Labels)

  datatype EnvRef = EnvRef(name: string, namespace: string, environmentId: string, uid: string)

  /** The list is None for Go's nil slice. */
  datatype Status = Status(count: nat, environments: Option<seq<EnvRef>>)

  datatype App = App(labels: Labels, gitHash: string, status: Status) {
    function Id(): string {
      Label(labels, APPLICATION_ID)
    }
  }

  function RefOf(e: EnvObject): EnvRef {
    EnvRef(e.name, e.namespace, Label(e.labels, ENVIRONMENT_ID), e.uid)
  }

  // ---- The order of names ----

  /** Go's `<` on strings. */
  predicate Less(a: string, b: string)
    decreases |a|
  {
    if b == [] then false
    else if a == [] then true
    else if a[0] == b[0] then Less(a[1..], b[1..])
    else a[0] < b[0]
  }

  lemma {:induction false} LessIsStrict(a: string, b: string)
    ensures !(Less(a, b) && Less(b, a))
    ensures !Less(a, b) && !Less(b, a) <==> a == b
    decreases |a|
  {
    if a != [] && b != [] {
      LessIsStrict(a[1..], b[1..]);
      assert a == [a[0]] + a[1..] && b == [b[0]] + b[1..];
    }
  }

  /** The order is the lexicographic one: the first difference decides, and a prefix comes first. */
  lemma {:induction false} LessIsLexicographic(a: string, b: string, k: nat)
    requires k <= |a| && k <= |b| && a[..k] == b[..k]
    ensures k < |a| && k < |b| && a[k] != b[k] ==> (Less(a, b) <==> a[k] < b[k])
    ensures k == |a| || k == |b| ==> (Less(a, b) <==> |a| < |b|)
    decreases k
  {
    if k > 0 {
      assert a[0] == a[..k][0] && b[0] == b[..k][0];
      assert a[1..][..k - 1] == a[..k][1..] && b[1..][..k - 1] == b[..k][1..];
      LessIsLexicographic(a[1..], b[1..], k - 1);
    }
  }

  /** Not being greater is transitive. */
  lemma {:induction false} NotGreaterTransitive(a: string, b: string, c: string)
    requires !Less(b, a) && !Less(c, b)
    ensures !Less(c, a)
    decreases |a|
  {
    if a != [] && b != [] && c != [] && a[0] == b[0] == c[0] {
      NotGreaterTransitive(a[1..], b[1..], c[1..]);
    }
  }

  ghost predicate Sorted(s: seq<EnvObject>) {
    forall i, j :: 0 <= i < j < |s| ==> !Less(s[j].name, s[i].name)
  }

  ghost predicate DistinctNames(s: seq<EnvObject>) {
    forall i, j :: 0 <= i < j < |s| ==> s[i].name != s[j].name
  }

  /** `p` is the list in the order of the names; the library leaves open which, if names repeat. */
  ghost predicate SortedFrom(p: seq<EnvObject>, list: seq<EnvObject>) {
    Sorted(p) && multiset(p) == multiset(list)
  }

  // ---- Sorting in place ----

  /** `x` put behind everything that is not greater, from the right. */
  function Insert(s: seq<EnvObject>, x: EnvObject): (r: seq<EnvObject>)
    decreases |s|
  {
    if s != [] && Less(x.name, s[|s| - 1].name) then Insert(s[..|s| - 1], x) + [s[|s| - 1]] else s + [x]
  }

  lemma {:induction false} InsertMembers(s: seq<EnvObject>, x: EnvObject)
    ensures multiset(Insert(s, x)) == multiset(s) + multiset{x}
    decreases |s|
  {
    if s != [] && Less(x.name, s[|s| - 1].name) {
      InsertMembers(s[..|s| - 1], x);
      assert s == s[..|s| - 1] + [s[|s| - 1]];
    }
  }

  lemma {:induction false} InsertSorted(s: seq<EnvObject>, x: EnvObject)
    requires Sorted(s)
    ensures Sorted(Insert(s, x))
    decreases |s|
  {
    if s != [] && Less(x.name, s[|s| - 1].name) {
      var front, last := s[..|s| - 1], s[|s| - 1];
      InsertSorted(front, x);
      InsertMembers(front, x);
      LessIsStrict(x.name, last.name);
      var r := Insert(front, x);
      forall i | 0 <= i < |r| ensures !Less(last.name, r[i].name) {
        assert r[i] in multiset(r);
        assert r[i] == x || r[i] in front;
      }
    } else if s != [] {
      var last := s[|s| - 1];
      forall i | 0 <= i < |s| ensures !Less(x.name, s[i].name) {
        LessIsStrict(s[i].name, last.name);
        if i < |s| - 1 {
          NotGreaterTransitive(s[i].name, last.name, x.name);
        }
      }
    }
  }

  /** The element belongs to the left of position `j`. */
  ghost predicate MovesTo(s: seq<EnvObject>, j: nat, x: EnvObject) {
    j <= |s| && Insert(s, x) == Insert(s[..j], x) + s[j..]
  }

  lemma MovesLeft(s: seq<EnvObject>, j: nat, x: EnvObject)
    requires MovesTo(s, j, x) && j > 0 && Less(x.name, s[j - 1].name)
    ensures MovesTo(s, j - 1, x)
  {
    assert s[..j][..j - 1] == s[..j - 1] && [s[j - 1]] + s[j..] == s[j - 1..];
  }

  lemma MovesStart(s: seq<EnvObject>, x: EnvObject)
    ensures MovesTo(s, |s|, x)
  {
    assert s[..|s|] == s;
  }

  /** The list with the element at position `j`. */
  function Placed(s: seq<EnvObject>, j: nat, x: EnvObject): (r: seq<EnvObject>)
    requires j <= |s|
    ensures |r| == |s| + 1 && r[j] == x && (j > 0 ==> r[j - 1] == s[j - 1])
  {
    s[..j] + [x] + s[j..]
  }

  lemma PlacedLeft(s: seq<EnvObject>, j: nat, x: EnvObject)
    requires 0 < j <= |s|
    ensures Placed(s, j - 1, x) == Placed(s, j, x)[j - 1 := x][j := s[j - 1]]
  {
    assert s[j - 1..] == [s[j - 1]] + s[j..];
    assert s[..j] == s[..j - 1] + [s[j - 1]];
  }

  lemma PlacedEnd(s: seq<EnvObject>, j: nat, x: EnvObject)
    requires MovesTo(s, j, x) && (j > 0 ==> !Less(x.name, s[j - 1].name))
    ensures Placed(s, j, x) == Insert(s, x)
  {
  }

  /** One insertion: the element at `i` changes places with every greater one on its left. */
  method InsertAt(a: array<EnvObject>, i: nat)
    requires i < a.Length
    modifies a
    ensures a[..i + 1] == Insert(old(a[..i]), old(a[i]))
    ensures forall k :: i < k < a.Length ==> a[k] == old(a[k])
  {
    ghost var before, x := a[..i], a[i];
    var j := i;
    MovesStart(before, x);
    assert a[..i + 1] == before + [x] + [];
    while j > 0 && Less(a[j].name, a[j - 1].name)
      invariant 0 <= j <= i && MovesTo(before, j, x)
      invariant a[..i + 1] == Placed(before, j, x)
      invariant forall k :: i < k < a.Length ==> a[k] == old(a[k])
    {
      ghost var now := a[..i + 1];
      assert a[j] == now[j] && a[j - 1] == now[j - 1];
      MovesLeft(before, j, x);
      PlacedLeft(before, j, x);
      a[j - 1], a[j] := a[j], a[j - 1];
      assert a[..i + 1] == now[j - 1 := x][j := before[j - 1]];
      j := j - 1;
    }
    assert j > 0 ==> a[..i + 1][j] == a[j] && a[..i + 1][j - 1] == a[j - 1];
    PlacedEnd(before, j, x);
  }

  method SortByName(a: array<EnvObject>)
    modifies a
    ensures SortedFrom(a[..], old(a[..]))
  {
    ghost var start := a[..];
    for i := 0 to a.Length
      invariant SortedFrom(a[..i], start[..i])
      invariant forall k :: i <= k < a.Length ==> a[k] == start[k]
    {
      SortedFromNext(a[..i], start, i);
      InsertAt(a, i);
    }
    assert a[..a.Length] == a[..] && start[..a.Length] == start;
  }

  lemma SortedFromNext(p: seq<EnvObject>, list: seq<EnvObject>, i: nat)
    requires i < |list| && SortedFrom(p, list[..i])
    ensures SortedFrom(Insert(p, list[i]), list[..i + 1])
  {
    InsertSorted(p, list[i]);
    InsertMembers(p, list[i]);
    assert list[..i + 1] == list[..i] + [list[i]];
  }

  // ---- The status ----

  function Selected(list: seq<EnvObject>, id: string): seq<EnvObject> {
    if list == [] then []
    else (if Label(list[0].labels, APPLICATION_ID) == id then [list[0]] else []) + Selected(list[1..], id)
  }

  /** Exactly the environments with the label, in the order of the list. */
  lemma {:induction false} SelectedMembers(list: seq<EnvObject>, id: string)
    ensures forall e :: e in Selected(list, id) <==> e in list && Label(e.labels, APPLICATION_ID) == id
    ensures forall e ::
              multiset(Selected(list, id))[e] == if Label(e.labels, APPLICATION_ID) == id then multiset(list)[e] else 0
    decreases |list|
  {
    if list != [] {
      SelectedMembers(list[1..], id);
      assert list == [list[0]] + list[1..];
    }
  }

  function StatusOf(sorted: seq<EnvObject>): Status {
    Status(|sorted|, Some(seq(|sorted|, i requires 0 <= i < |sorted| => RefOf(sorted[i]))))
  }

  /** The API server leaves an empty list out, and reading it back gives nil. */
  function Stored(status: Status): Status {
    if status.environments == Some([]) then status.(environments := None) else status
  }

  /** A reference shows its environment's name, namespace, uid and Id label, "" if it has none. */
  predicate Refers(r: EnvRef, e: EnvObject) {
    && r.name == e.name && r.namespace == e.namespace && r.uid == e.uid
    && r.environmentId == (if ENVIRONMENT_ID in e.labels then e.labels[ENVIRONMENT_ID] else "")
  }

  method FillStatus(items: array<EnvObject>) returns (status: Status)
    ensures status == StatusOf(items[..])
    ensures status.count == items.Length && status.environments.Some? && |status.environments.value| == items.Length
    ensures forall i :: 0 <= i < items.Length ==> Refers(status.environments.value[i], items[i])
  {
    var refs := new EnvRef[items.Length](_ => EnvRef("", "", "", ""));
    for i := 0 to items.Length
      invariant forall k :: 0 <= k < i ==> refs[k] == RefOf(items[k])
    {
      refs[i] := EnvRef(items[i].name, items[i].namespace, refs[i].environmentId, items[i].uid);
      refs[i] := refs[i].(environmentId := Label(items[i].labels, ENVIRONMENT_ID));
    }
    assert refs[..] == StatusOf(items[..]).environments.value;
    status := Status(items.Length, Some(refs[..]));
  }

  datatype Outcome = Requeue | Unchanged | StatusWritten

  class ApplicationReconciler {
    var app: App

    constructor (app: App)
      ensures this.app == app
    {
      this.app := app;
    }

    method Reconcile(list: seq<EnvObject>, id: string) returns (outcome: Outcome)
      modifies this
      ensures old(app).Id() == "" ==>
                outcome == Requeue && app == old(app).(labels := old(app).labels[APPLICATION_ID := id])
      ensures old(app).Id() != "" && Label(old(app).labels, GIT_REPO) != old(app).gitHash ==>
                outcome == Requeue && app == old(app).(labels := old(app).labels[GIT_REPO := old(app).gitHash])
      ensures old(app).Id() != "" && Label(old(app).labels, GIT_REPO) == old(app).gitHash ==>
                exists p :: SortedFrom(p, Selected(list, old(app).Id())) && Decides(old(app), p, app, outcome)
    {
      if app.Id() == "" {
        app := app.(labels := app.labels[APPLICATION_ID := id]);
        return Requeue;
      }
      if Label(app.labels, GIT_REPO) != app.gitHash {
        app := app.(labels := app.labels[GIT_REPO := app.gitHash]);
        return Requeue;
      }
      var matching := Selected(list, app.Id());
      var items := new EnvObject[|matching|](i requires 0 <= i < |matching| => matching[i]);
      assert items[..] == matching;
      SortByName(items);
      var next := FillStatus(items);
      ghost var p := items[..];
      outcome := Unchanged;
      if next != app.status {
        app := app.(status := Stored(next));
        outcome := StatusWritten;
      }
      assert Decides(old(app), p, app, outcome);
    }
  }

  /** The status becomes the one of a sorted list, unless it is that already. */
  predicate Decides(before: App, p: seq<EnvObject>, after: App, outcome: Outcome) {
    if StatusOf(p) == before.status then outcome == Unchanged && after == before
    else outcome == StatusWritten && after == before.(status := Stored(StatusOf(p)))
  }

  // ---- What the status says, and when it is determined ----

  lemma SameFirst(p: seq<EnvObject>, q: seq<EnvObject>)
    requires Sorted(p) && Sorted(q) && DistinctNames(p) && p != [] && q != [] && p[0] in q && q[0] in p
    ensures p[0] == q[0]
  {
    FirstIsLeast(p, q[0]);
    FirstIsLeast(q, p[0]);
    LessIsStrict(p[0].name, q[0].name);
    var k :| 0 <= k < |p| && p[k] == q[0];
  }

  lemma TailMultiset(s: seq<EnvObject>)
    requires s != []
    ensures multiset(s[1..]) == multiset(s) - multiset{s[0]} && s == [s[0]] + s[1..]
  {
    assert s == [s[0]] + s[1..];
  }

  /** With distinct names there is one sorted list, whatever order the API server lists them in. */
  lemma {:induction false} SortedIsUnique(p: seq<EnvObject>, q: seq<EnvObject>)
    requires Sorted(p) && Sorted(q) && multiset(p) == multiset(q) && DistinctNames(p)
    ensures p == q
    decreases |p|
  {
    assert |multiset(p)| == |multiset(q)|;
    if p != [] {
      assert p[0] in multiset(q) && q[0] in multiset(p);
      SameFirst(p, q);
      TailMultiset(p);
      TailMultiset(q);
      SortedIsUnique(p[1..], q[1..]);
    }
  }

  lemma FirstIsLeast(s: seq<EnvObject>, e: EnvObject)
    requires Sorted(s) && e in s
    ensures !Less(e.name, s[0].name)
  {
    var i :| 0 <= i < |s| && s[i] == e;
    LessIsStrict(e.name, e.name);
  }

  /** Two different environments of one name can be listed either way. */
  lemma SwapEqualNames(p: seq<EnvObject>, i: nat)
    requires Sorted(p) && i + 1 < |p| && p[i].name == p[i + 1].name && RefOf(p[i]) != RefOf(p[i + 1])
    ensures var q := p[i := p[i + 1]][i + 1 := p[i]];
            Sorted(q) && multiset(q) == multiset(p) && StatusOf(q) != StatusOf(p)
  {
    var q := p[i := p[i + 1]][i + 1 := p[i]];
    assert forall k :: 0 <= k < |p| ==> q[k].name == p[k].name;
    assert StatusOf(q).environments.value[i] == RefOf(p[i + 1]) && StatusOf(p).environments.value[i] == RefOf(p[i]);
  }

  /** A second pass over the same environments writes nothing exactly if there is at least one: an
      empty list is read back as nil, which is not equal to the empty list. */
  lemma SecondPassWritesNothingIff(p: seq<EnvObject>, q: seq<EnvObject>, list: seq<EnvObject>, before: App,
                                   after: App, outcome: Outcome)
    requires SortedFrom(p, list) && SortedFrom(q, list) && DistinctNames(p)
    requires Stored(StatusOf(p)) == before.status && Decides(before, q, after, outcome)
    ensures outcome == Unchanged <==> list != []
  {
    SortedIsUnique(p, q);
    assert |multiset(p)| == |multiset(list)|;
    assert list == [] <==> p == [];
    if p == [] {
      assert StatusOf(p).environments == Some([]);
    } else {
      assert |StatusOf(p).environments.value| == |p|;
    }
  }

  /** The status lists exactly the application's environments, each as often as it exists, by name. */
  lemma StatusMeaning(p: seq<EnvObject>, list: seq<EnvObject>, id: string)
    requires SortedFrom(p, Selected(list, id))
    ensures StatusOf(p).count == |p| == |Selected(list, id)|
    ensures forall e :: e in p <==> e in list && Label(e.labels, APPLICATION_ID) == id
    ensures var refs := StatusOf(p).environments.value;
            && |refs| == |p| && (forall i :: 0 <= i < |refs| ==> Refers(refs[i], p[i]))
            && (forall i, j :: 0 <= i < j < |refs| ==> !Less(refs[j].name, refs[i].name))
  {
    SelectedMembers(list, id);
    assert |multiset(p)| == |multiset(Selected(list, id))|;
    assert forall e :: e in p <==> e in multiset(p);
  }
}
