/** The finalizer list of an API object (pkg/common/finalizer.go).

    The list is a Go slice: a backing array and a length.  `RemoveFinalizer` shifts the backing
    array while a `range` loop with the original length is still reading it, so the model keeps
    the array, and the run-time panic of an out-of-range slice expression is an outcome. */
module Finalizers {
  import opened Options

  ghost predicate Unique(s: seq<string>) {
    forall i, j :: 0 <= i < j < |s| ==> s[i] != s[j]
  }

  /** The order-preserving removal of every occurrence of `f`. */
  function Without(s: seq<string>, f: string): seq<string> {
    if s == [] then []
    else if s[0] == f then Without(s[1..], f)
    else [s[0]] + Without(s[1..], f)
  }

  /** The list with `f` at its end, unless `f` is already there. */
  function With(s: seq<string>, f: string): seq<string> {
    if f in s then s else s + [f]
  }

  /** What the shifting loop really computes: the element that slides into the place of a removed
      one is not looked at. */
  function SkippingRemoval(s: seq<string>, f: string): seq<string> {
    if s == [] then []
    else if s[0] == f then if |s| == 1 then [] else [s[1]] + SkippingRemoval(s[2..], f)
    else [s[0]] + SkippingRemoval(s[1..], f)
  }

  /** The inputs on which the loop slices out of range: `f` is last and also occurs earlier. */
  predicate Overruns(s: seq<string>, f: string) {
    |s| > 0 && s[|s| - 1] == f && exists i :: 0 <= i < |s| - 1 && s[i] == f
  }

  predicate AdjacentPair(s: seq<string>, f: string) {
    exists i :: 0 <= i < |s| - 1 && s[i] == f && s[i + 1] == f
  }

  lemma {:induction false} WithoutMembers(s: seq<string>, f: string)
    ensures forall x :: x in Without(s, f) <==> x in s && x != f
    ensures f !in s ==> Without(s, f) == s
  {
    if s != [] {
      WithoutMembers(s[1..], f);
      assert s == [s[0]] + s[1..];
    }
  }

  lemma {:induction false} WithoutUnique(s: seq<string>, f: string)
    requires Unique(s)
    ensures Unique(Without(s, f))
  {
    if s != [] {
      assert Unique(s[1..]);
      WithoutUnique(s[1..], f);
      WithoutMembers(s[1..], f);
      assert s[0] !in s[1..];
    }
  }

  lemma {:induction false} SkippingMember(s: seq<string>, f: string)
    ensures f in SkippingRemoval(s, f) <==> AdjacentPair(s, f)
    ensures forall x :: x in SkippingRemoval(s, f) ==> x in s
  {
    if s == [] {
    } else if s[0] != f {
      SkippingMember(s[1..], f);
      if AdjacentPair(s, f) {
        var i :| 0 <= i < |s| - 1 && s[i] == f && s[i + 1] == f;
        assert s[1..][i - 1] == f && s[1..][i - 1 + 1] == f;
      }
      if AdjacentPair(s[1..], f) {
        var i :| 0 <= i < |s[1..]| - 1 && s[1..][i] == f && s[1..][i + 1] == f;
        assert s[i + 1] == f && s[i + 1 + 1] == f;
      }
    } else if |s| > 1 {
      SkippingMember(s[2..], f);
      if s[1] == f {
        assert s[0] == f && s[0 + 1] == f;
      } else {
        if AdjacentPair(s, f) {
          var i :| 0 <= i < |s| - 1 && s[i] == f && s[i + 1] == f;
          assert i >= 2;
          assert s[2..][i - 2] == f && s[2..][i - 2 + 1] == f;
        }
        if AdjacentPair(s[2..], f) {
          var i :| 0 <= i < |s[2..]| - 1 && s[2..][i] == f && s[2..][i + 1] == f;
          assert s[i + 2] == f && s[i + 2 + 1] == f;
        }
      }
    }
  }

  lemma {:induction false} SkippingIsFull(s: seq<string>, f: string)
    requires !AdjacentPair(s, f)
    ensures SkippingRemoval(s, f) == Without(s, f)
  {
    if s == [] {
    } else if s[0] != f {
      forall i | 0 <= i < |s[1..]| - 1 ensures !(s[1..][i] == f && s[1..][i + 1] == f) {
        assert !(s[i + 1] == f && s[i + 1 + 1] == f);
      }
      SkippingIsFull(s[1..], f);
    } else if |s| > 1 {
      assert s[0] == f && s[0 + 1] != f;
      forall i | 0 <= i < |s[2..]| - 1 ensures !(s[2..][i] == f && s[2..][i + 1] == f) {
        assert !(s[i + 2] == f && s[i + 2 + 1] == f);
      }
      SkippingIsFull(s[2..], f);
      assert s[1..][0] == s[1] && s[1..][1..] == s[2..];
    }
  }

  /** The loop performs the intended removal exactly on the lists without two neighbouring
      occurrences of the finalizer; otherwise one occurrence survives. */
  lemma RemovalIsCompleteIff(s: seq<string>, f: string)
    ensures SkippingRemoval(s, f) == Without(s, f) <==> !AdjacentPair(s, f)
  {
    SkippingMember(s, f);
    WithoutMembers(s, f);
    if !AdjacentPair(s, f) {
      SkippingIsFull(s, f);
    }
  }

  /** A duplicate-free list never overruns and loses exactly the finalizer. */
  lemma UniqueListsAreSafe(s: seq<string>, f: string)
    requires Unique(s)
    ensures !Overruns(s, f)
    ensures SkippingRemoval(s, f) == Without(s, f)
    ensures Unique(Without(s, f)) && Unique(With(s, f))
  {
    RemovalIsCompleteIff(s, f);
    WithoutUnique(s, f);
  }

  /** Adding and then removing a finalizer that was absent restores the list. */
  lemma {:induction false} AddThenRemove(s: seq<string>, f: string)
    requires f !in s
    ensures !Overruns(With(s, f), f)
    ensures SkippingRemoval(With(s, f), f) == s
  {
    assert (s + [f])[..|s|] == s;
    if s != [] {
      AddThenRemove(s[1..], f);
      assert (s + [f])[1..] == s[1..] + [f];
    }
  }

  /** The list `[F, F]` overruns; `[F, F, x]` keeps an `F`. */
  lemma DuplicatesBreakRemoval(f: string, x: string)
    requires x != f
    ensures Overruns([f, f], f)
    ensures !Overruns([f, f, x], f) && SkippingRemoval([f, f, x], f) == [f, x]
  {
    assert [f, f][0] == f;
    assert [f, f, x][2..] == [x];
    assert SkippingRemoval([x], f) == [x];
  }

  /** The `range` loop on values: it is about to read cell `i` of the backing array `b`, and the
      slice has shrunk to `len`.  None is the out-of-range slice expression. */
  function RangeLoop(b: seq<string>, i: nat, len: nat, f: string): Option<seq<string>>
    requires i <= |b| && len <= |b|
    decreases |b| - i
  {
    if i == |b| then Some(b[..len])
    else if b[i] != f then RangeLoop(b, i + 1, len, f)
    else if i + 1 > len then None
    else RangeLoop(CloseGap(b, i, len), i + 1, len - 1, f)
  }

  /** The backing array after `append(finalizers[:i], finalizers[i+1:]...)` on a slice of length `len`. */
  function CloseGap(b: seq<string>, i: nat, len: nat): (c: seq<string>)
    requires i < len <= |b|
    ensures |c| == |b|
  {
    b[..i] + b[i + 1..len] + b[len - 1..]
  }

  /** Behind the shrunken slice every cell holds `x`, so the first stale cell decides. */
  lemma {:induction false} RangeOverStale(b: seq<string>, i: nat, len: nat, f: string, x: string)
    requires len <= i <= |b|
    requires forall k :: len <= k < |b| ==> b[k] == x
    ensures RangeLoop(b, i, len, f) == if i < |b| && x == f then None else Some(b[..len])
    decreases |b| - i
  {
    if i < |b| && x != f {
      RangeOverStale(b, i + 1, len, f, x);
    }
  }

  lemma StepOverOther(done: seq<string>, rest: seq<string>, stale: seq<string>, f: string)
    requires rest != [] && rest[0] != f
    ensures RangeLoop(done + rest + stale, |done|, |done| + |rest|, f)
         == RangeLoop((done + [rest[0]]) + rest[1..] + stale, |done| + 1, |done| + |rest|, f)
    ensures done + SkippingRemoval(rest, f) == (done + [rest[0]]) + SkippingRemoval(rest[1..], f)
  {
    assert done + rest + stale == (done + [rest[0]]) + rest[1..] + stale;
  }

  lemma RangeOverLast(done: seq<string>, f: string, stale: seq<string>)
    requires forall k :: 0 <= k < |stale| ==> stale[k] == f
    ensures RangeLoop(done + [f] + stale, |done|, |done| + 1, f) == if stale == [] then Some(done) else None
  {
    assert CloseGap(done + [f] + stale, |done|, |done| + 1) == done + ([f] + stale);
    RangeOverStale(done + ([f] + stale), |done| + 1, |done|, f, f);
    assert (done + ([f] + stale))[..|done|] == done;
  }

  lemma StepBeforeMore(done: seq<string>, rest: seq<string>, stale: seq<string>, f: string)
    requires |rest| > 1 && rest[0] == f
    ensures RangeLoop(done + rest + stale, |done|, |done| + |rest|, f)
         == RangeLoop((done + [rest[1]]) + rest[2..] + ([rest[|rest| - 1]] + stale), |done| + 1, |done| + |rest| - 1, f)
    ensures done + SkippingRemoval(rest, f) == (done + [rest[1]]) + SkippingRemoval(rest[2..], f)
  {
    assert CloseGap(done + rest + stale, |done|, |done| + |rest|)
        == (done + [rest[1]]) + rest[2..] + ([rest[|rest| - 1]] + stale);
  }

  lemma RangeOverNothing(done: seq<string>, stale: seq<string>, f: string, x: string)
    requires forall k :: 0 <= k < |stale| ==> stale[k] == x
    ensures RangeLoop(done + [] + stale, |done|, |done|, f) == if stale != [] && x == f then None else Some(done)
  {
    assert done + [] + stale == done + stale && (done + stale)[..|done|] == done;
    RangeOverStale(done + stale, |done|, |done|, f, x);
  }

  /** What the loop returns with `done` behind it, `rest` still to be read and `stale` cells, all of
      them copies of the last element `x`, behind the slice. */
  function RestResult(
    done: seq<string>, rest: seq<string>, stale: seq<string>, f: string, x: string): Option<seq<string>>
  {
    if (if stale == [] then Overruns(rest, f) else x == f) then None else Some(done + SkippingRemoval(rest, f))
  }

  lemma {:induction false} RangeOverRest(done: seq<string>, rest: seq<string>, stale: seq<string>, f: string, x: string)
    requires rest != [] ==> rest[|rest| - 1] == x
    requires forall k :: 0 <= k < |stale| ==> stale[k] == x
    ensures RangeLoop(done + rest + stale, |done|, |done| + |rest|, f) == RestResult(done, rest, stale, f, x)
    decreases |rest|
  {
    if rest == [] {
      RangeOverNothing(done, stale, f, x);
      assert done + SkippingRemoval([], f) == done;
    } else if rest[0] != f {
      StepOverOther(done, rest, stale, f);
      OverrunsTail(rest, f);
      RangeOverRest(done + [rest[0]], rest[1..], stale, f, x);
    } else if |rest| == 1 {
      assert rest == [f];
      RangeOverLast(done, f, stale);
      assert done + SkippingRemoval([f], f) == done;
    } else {
      StepBeforeMore(done, rest, stale, f);
      assert Overruns(rest, f) == (x == f) by {
        assert rest[0] == f && 0 < |rest| - 1;
      }
      RangeOverRest(done + [rest[1]], rest[2..], [x] + stale, f, x);
    }
  }

  lemma LoopResult(s: seq<string>, f: string)
    ensures RangeLoop(s, 0, |s|, f) == if Overruns(s, f) then None else Some(SkippingRemoval(s, f))
  {
    RangeOverRest([], s, [], f, if s == [] then f else s[|s| - 1]);
    assert [] + s + [] == s && [] + SkippingRemoval(s, f) == SkippingRemoval(s, f);
  }

  lemma OverrunsTail(s: seq<string>, f: string)
    requires s != [] && s[0] != f
    ensures Overruns(s[1..], f) == Overruns(s, f)
  {
    if Overruns(s, f) {
      var i :| 0 <= i < |s| - 1 && s[i] == f;
      assert s[1..][i - 1] == f;
    }
  }

  datatype Outcome = Panicked | Done(changed: bool)

  class Resource {
    var cells: array<string>
    var len: nat

    ghost predicate Valid()
      reads this
    {
      len <= cells.Length
    }

    ghost function Finalizers(): seq<string>
      reads this, cells
      requires Valid()
    {
      cells[..len]
    }

    constructor ()
      ensures Valid() && fresh(cells) && Finalizers() == []
    {
      cells := new string[0];
      len := 0;
    }

    method HasFinalizer(finalizer: string) returns (has: bool)
      requires Valid()
      ensures has <==> finalizer in Finalizers()
    {
      for i := 0 to len
        invariant finalizer !in cells[..i]
      {
        if cells[i] == finalizer {
          assert cells[..len][i] == finalizer;
          return true;
        }
        assert cells[..i + 1] == cells[..i] + [cells[i]];
      }
      return false;
    }

    /** `append` writes into spare capacity when there is some and moves to a larger backing
        array otherwise. */
    method AddFinalizer(finalizer: string) returns (changed: bool)
      requires Valid()
      modifies this, cells
      ensures Valid() && (cells == old(cells) || fresh(cells))
      ensures changed <==> finalizer !in old(Finalizers())
      ensures Finalizers() == old(Finalizers()) + if changed then [finalizer] else []
      ensures Finalizers() == With(old(Finalizers()), finalizer)
    {
      var has := HasFinalizer(finalizer);
      if has {
        return false;
      }
      ghost var was := cells[..len];
      if len == cells.Length {
        var larger := new string[2 * len + 1](_ => "");
        for i := 0 to len
          invariant len == cells.Length == |was| && cells[..len] == was && fresh(larger)
          invariant larger[..i] == was[..i]
        {
          larger[i] := cells[i];
        }
        cells := larger;
      }
      assert cells[..len] == was;
      cells[len] := finalizer;
      len := len + 1;
      assert cells[..len] == was + [finalizer];
      return true;
    }

    /** The in-place removal, with its exact result on every list. */
    method RemoveFinalizer(finalizer: string) returns (outcome: Outcome)
      requires Valid()
      modifies this, cells
      ensures Valid() && cells == old(cells)
      ensures outcome.Panicked? <==> Overruns(old(Finalizers()), finalizer)
      ensures outcome.Done? ==> outcome.changed == (finalizer in old(Finalizers()))
      ensures outcome.Done? ==> Finalizers() == SkippingRemoval(old(Finalizers()), finalizer)
    {
      var n, i, changed := len, 0, false;
      ghost var s := Finalizers();
      ghost var b := s;
      while i < n
        invariant i <= n && len <= n && cells == old(cells) && n == |b| == |s|
        invariant cells[..n] == b && changed == (len < n)
        invariant changed ==> finalizer in s
        invariant !changed ==> b == s && finalizer !in s[..i]
        invariant RangeLoop(b, i, len, finalizer) == RangeLoop(s, 0, n, finalizer)
      {
        assert cells[i] == b[i];
        if cells[i] == finalizer {
          if i + 1 > len {
            LoopResult(s, finalizer);
            return Panicked;
          }
          b := ShiftLeft(i, len, b);
          len := len - 1;
          changed := true;
        }
        i := i + 1;
      }
      assert cells[..len] == b[..len];
      assert s[..n] == s;
      LoopResult(s, finalizer);
      return Done(changed);
    }

    /** The copying done by `append(finalizers[:i], finalizers[i+1:]...)`. */
    method ShiftLeft(i: nat, length: nat, ghost b: seq<string>) returns (ghost c: seq<string>)
      requires i < length <= |b| <= cells.Length && cells[..|b|] == b
      modifies cells
      ensures c == CloseGap(b, i, length) && cells[..|b|] == c
    {
      c := CloseGap(b, i, length);
      assert forall k :: 0 <= k < |b| ==> cells[k] == cells[..|b|][k];
      for j := i to length - 1
        invariant forall k :: 0 <= k < j ==> cells[k] == c[k]
        invariant forall k :: j <= k < |b| ==> cells[k] == b[k]
      {
        cells[j] := cells[j + 1];
      }
      assert forall k :: length - 1 <= k < |b| ==> c[k] == b[k];
    }
  }
}
