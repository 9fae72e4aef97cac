/** Labels and owner references copied from a parent (pkg/common/owner.go). */
module LabelSync {
  import opened Options
  import opened SiteTypes

  predicate HasPrefix(s: string, prefix: string) {
    prefix <= s
  }

  /** The labels of `dest` after every prefixed label of `src` has been copied over. */
  function SyncedLabels(src: Labels, dest: Labels, prefix: string): (r: Labels) {
    dest + (map k | k in src && HasPrefix(k, prefix) :: src[k])
  }

  predicate InSync(src: Labels, dest: Labels, prefix: string) {
    forall k :: k in src && HasPrefix(k, prefix) ==> k in dest && dest[k] == src[k]
  }

  /** The sync is the smallest change that brings `dest` in line; it is idempotent, and it keeps
      every label whose key the source does not hold. */
  lemma SyncedLabelsMeaning(src: Labels, dest: Labels, prefix: string)
    ensures InSync(src, SyncedLabels(src, dest, prefix), prefix)
    ensures forall k :: k in src && prefix <= k ==>
              k in SyncedLabels(src, dest, prefix) && SyncedLabels(src, dest, prefix)[k] == src[k]
    ensures SyncedLabels(src, dest, prefix) == dest <==> InSync(src, dest, prefix)
    ensures forall k :: k !in src || !(prefix <= k) ==>
              && (k in SyncedLabels(src, dest, prefix) <==> k in dest)
              && (k in dest ==> SyncedLabels(src, dest, prefix)[k] == dest[k])
    ensures SyncedLabels(src, SyncedLabels(src, dest, prefix), prefix) == SyncedLabels(src, dest, prefix)
  {
    var r := SyncedLabels(src, dest, prefix);
    if InSync(src, dest, prefix) {
      assert r == dest;
    }
    if r == dest {
      forall k | k in src && HasPrefix(k, prefix) ensures k in dest && dest[k] == src[k] {
        assert r[k] == src[k];
      }
    }
    assert SyncedLabels(src, r, prefix) == r;
  }

  /** The state of the copying loop while the keys in `rest` are still to be visited. */
  ghost predicate PartlySynced(src: Labels, before: Labels, now: Labels, prefix: string, rest: set<string>) {
    forall k ::
      if k in src && k !in rest && HasPrefix(k, prefix) then k in now && now[k] == src[k]
      else (k in now <==> k in before) && (k in now ==> now[k] == before[k])
  }

  lemma FullySynced(src: Labels, before: Labels, now: Labels, prefix: string)
    requires PartlySynced(src, before, now, prefix, {})
    ensures now == SyncedLabels(src, before, prefix)
  {
  }

  ghost predicate PartlyMerged(found: Labels, desired: Labels, now: Labels, rest: set<string>) {
    forall k ::
      if k in desired && k !in rest then k in now && now[k] == desired[k]
      else (k in now <==> k in found) && (k in now ==> now[k] == found[k])
  }

  lemma FullyMerged(found: Labels, desired: Labels, now: Labels)
    requires PartlyMerged(found, desired, now, {})
    ensures now == found + desired
  {
  }

  /** The loop over the annotations wanted on an Ingress, in any order.  An object without annotations
      has a nil map, and the first write into it crashes. */
  method EnsureAnnotations(found: Labels, desired: Labels) returns (merged: Labels, update: bool, crashed: bool)
    ensures crashed <==> found == map[] && desired != map[]
    ensures !crashed ==> merged == found + desired && (update <==> merged != found)
  {
    merged, update, crashed := found, false, false;
    var rest := desired.Keys;
    ghost var differs := "";
    while rest != {}
      invariant rest <= desired.Keys
      invariant found == map[] ==> rest == desired.Keys
      invariant PartlyMerged(found, desired, merged, rest)
      invariant !update ==> merged == found
      invariant update ==> differs in merged && differs !in rest
      invariant update ==> !(differs in found && found[differs] == merged[differs])
      decreases |rest|
    {
      var k :| k in rest;
      if k !in merged || merged[k] != desired[k] {
        if found == map[] {
          crashed := true;
          return;
        }
        differs, update := k, true;
        merged := merged[k := desired[k]];
      }
      rest := rest - {k};
    }
    FullyMerged(found, desired, merged);
  }

  /** Who controls an object: nobody, the parent that its specification names, or someone else. */
  datatype Control = Free | ByParent | ByOther

  datatype OwnerRef = OwnerRef(uid: string, controller: Option<bool>)

  predicate Controls(r: OwnerRef) {
    r.controller == Some(true)
  }

  predicate ControlledBy(owners: seq<OwnerRef>, uid: string) {
    exists i :: 0 <= i < |owners| && Controls(owners[i]) && owners[i].uid == uid
  }

  /** SetControllerReference: refused when another owner already controls the object. */
  function WithController(owners: seq<OwnerRef>, uid: string): Option<seq<OwnerRef>> {
    if exists i :: 0 <= i < |owners| && Controls(owners[i]) && owners[i].uid != uid then None
    else if ControlledBy(owners, uid) then Some(owners)
    else Some(Upserted(owners, OwnerRef(uid, Some(true))))
  }

  /** A reference to the same owner is replaced, otherwise the new one is appended. */
  function Upserted(owners: seq<OwnerRef>, r: OwnerRef): (s: seq<OwnerRef>)
    ensures r in s
    decreases |owners|
  {
    if owners == [] then [r]
    else if owners[0].uid == r.uid then [r] + owners[1..]
    else [owners[0]] + Upserted(owners[1..], r)
  }

  lemma ControllersIn(owners: seq<OwnerRef>, uid: string)
    ensures ControlledBy(owners, uid) <==> exists r :: r in owners && r.controller == Some(true) && r.uid == uid
    ensures (exists i :: 0 <= i < |owners| && Controls(owners[i]) && owners[i].uid != uid) <==>
              exists r :: r in owners && r.controller == Some(true) && r.uid != uid
  {
  }

  /** The references of all other owners. */
  function Others(owners: seq<OwnerRef>, uid: string): seq<OwnerRef>
    decreases |owners|
  {
    if owners == [] then []
    else (if owners[0].uid == uid then [] else [owners[0]]) + Others(owners[1..], uid)
  }

  /** References of other owners stay in their order. */
  lemma {:induction false} UpsertedKeepsOthers(owners: seq<OwnerRef>, r: OwnerRef)
    ensures Others(Upserted(owners, r), r.uid) == Others(owners, r.uid)
    decreases |owners|
  {
    if owners == [] {
      assert [r][1..] == [];
    } else if owners[0].uid == r.uid {
      assert ([r] + owners[1..])[1..] == owners[1..];
    } else {
      UpsertedKeepsOthers(owners[1..], r);
      assert ([owners[0]] + Upserted(owners[1..], r))[1..] == Upserted(owners[1..], r);
    }
  }

  class OwnedResource {
    const uid: string
    var labels: Labels
    var owners: seq<OwnerRef>

    constructor (uid: string, labels: Labels, owners: seq<OwnerRef>)
      ensures this.uid == uid && this.labels == labels && this.owners == owners
    {
      this.uid := uid;
      this.labels := labels;
      this.owners := owners;
    }

    method IsControlledBy(owner: OwnedResource) returns (controlled: bool)
      ensures controlled <==> ControlledBy(owners, owner.uid)
    {
      for i := 0 to |owners|
        invariant forall k :: 0 <= k < i ==> !(Controls(owners[k]) && owners[k].uid == owner.uid)
      {
        if owners[i].controller.Some? && owners[i].controller.value && owners[i].uid == owner.uid {
          return true;
        }
      }
      return false;
    }

    /** The loop visits the source labels in an arbitrary order. */
    method SyncLabelsWithPrefix(src: Labels, prefix: string) returns (changed: bool)
      modifies this`labels
      ensures labels == SyncedLabels(src, old(labels), prefix)
      ensures changed <==> labels != old(labels)
    {
      changed := false;
      var rest := src.Keys;
      ghost var before, updated := labels, "";
      while rest != {}
        invariant rest <= src.Keys
        invariant PartlySynced(src, before, labels, prefix, rest)
        invariant !changed ==> labels == before
        invariant changed ==> updated in labels && updated !in rest
        invariant changed ==> !(updated in before && before[updated] == labels[updated])
        decreases |rest|
      {
        var key :| key in rest;
        rest := rest - {key};
        if HasPrefix(key, prefix) {
          if key !in labels || labels[key] != src[key] {
            changed := true;
            updated := key;
            labels := labels[key := src[key]];
          }
        }
      }
      FullySynced(src, before, labels, prefix);
    }

    method LinkToOwner(owner: OwnedResource) returns (changed: bool, refused: bool)
      requires owner != this
      modifies this
      ensures labels == SyncedLabels(owner.labels, old(labels), LABEL_PREFIX)
      ensures refused <==>
                && (forall r :: r in old(owners) && r.controller == Some(true) ==> r.uid != owner.uid)
                && (exists r :: r in old(owners) && r.controller == Some(true))
      ensures refused ==> !changed && owners == old(owners)
      ensures !refused ==> exists r :: r in owners && r.controller == Some(true) && r.uid == owner.uid
      ensures Others(owners, owner.uid) == Others(old(owners), owner.uid)
      ensures !refused ==> (changed <==> labels != old(labels) || owners != old(owners))
    {
      changed := SyncLabelsWithPrefix(owner.labels, LABEL_PREFIX);
      refused := false;
      var controlled := IsControlledBy(owner);
      ControllersIn(owners, owner.uid);
      if !controlled {
        UpsertedKeepsOthers(owners, OwnerRef(owner.uid, Some(true)));
        var next := WithController(owners, owner.uid);
        if next.None? {
          return false, true;
        }
        var i :| 0 <= i < |next.value| && next.value[i] == OwnerRef(owner.uid, Some(true));
        owners := next.value;
        changed := true;
      }
    }
  }
}
