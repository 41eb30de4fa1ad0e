/** Merging the ids a rubber band hits into an existing selection: the ids of
    both lists in order, each kept at its first occurrence, as a JavaScript
    `Set` built from `[...base, ...hitIds]` yields them. */
module SelectionMerge {

  predicate NoDuplicates<T(==, !new)>(s: seq<T>) {
    forall i, j :: 0 <= i < j < |s| ==> s[i] != s[j]
  }

  /** The insertion order of a `Set` fed `s` element by element: a value is
      added when it is not there yet. */
  function Dedup<T(==, !new)>(s: seq<T>): (r: seq<T>)
    ensures NoDuplicates(r)
    ensures forall x :: x in r <==> x in s
    ensures |r| <= |s|
  {
    if |s| == 0 then []
    else
      var d := Dedup(s[..|s| - 1]);
      var x := s[|s| - 1];
      assert forall y :: y in s <==> y in s[..|s| - 1] || y == x by {
        assert s == s[..|s| - 1] + [x];
      }
      if x in d then d else d + [x]
  }

  /** The elements of `s` not in `seen`, in order. */
  function Unseen<T(==, !new)>(s: seq<T>, seen: seq<T>): (r: seq<T>)
    ensures forall x :: x in r <==> x in s && x !in seen
  {
    if |s| == 0 then []
    else
      var rest := Unseen(s[..|s| - 1], seen);
      var x := s[|s| - 1];
      assert forall y :: y in s <==> y in s[..|s| - 1] || y == x by {
        assert s == s[..|s| - 1] + [x];
      }
      if x in seen then rest else rest + [x]
  }

  function MergeSelectionIds(base: seq<string>, hitIds: seq<string>): (r: seq<string>)
    ensures NoDuplicates(r)
    ensures forall id :: id in r <==> id in base || id in hitIds
  {
    Dedup(base + hitIds)
  }

  lemma DedupSnoc<T(!new)>(s: seq<T>, x: T)
    ensures Dedup(s + [x]) == if x in Dedup(s) then Dedup(s) else Dedup(s) + [x]
  {
    assert (s + [x])[..|s + [x]| - 1] == s;
  }

  lemma UnseenSnoc<T(!new)>(s: seq<T>, x: T, seen: seq<T>)
    ensures Unseen(s + [x], seen) == if x in seen then Unseen(s, seen) else Unseen(s, seen) + [x]
  {
    assert (s + [x])[..|s + [x]| - 1] == s;
  }

  /** Deduplicating a concatenation keeps the first part's order and then adds
      the second part's new values in their order. */
  lemma {:induction false} DedupAppend<T(!new)>(a: seq<T>, b: seq<T>)
    ensures Dedup(a + b) == Dedup(a) + Dedup(Unseen(b, a))
    decreases |b|
  {
    if |b| == 0 {
      assert a + b == a;
    } else {
      var init, x := b[..|b| - 1], b[|b| - 1];
      assert b == init + [x];
      assert a + b == (a + init) + [x];
      DedupAppend(a, init);
      DedupSnoc(a + init, x);
      UnseenSnoc(init, x, a);
      var u := Unseen(init, a);
      if x !in a {
        DedupSnoc(u, x);
        DedupAppendNew(a, init, x);
      }
    }
  }

  /** The step of `DedupAppend` for a value that is not in the first part. */
  lemma DedupAppendNew<T(!new)>(a: seq<T>, init: seq<T>, x: T)
    requires x !in a
    requires Dedup(a + init) == Dedup(a) + Dedup(Unseen(init, a))
    ensures (if x in Dedup(a + init) then Dedup(a + init) else Dedup(a + init) + [x]) ==
            Dedup(a) + (if x in Dedup(Unseen(init, a)) then Dedup(Unseen(init, a)) else Dedup(Unseen(init, a)) + [x])
  {
    var e := Dedup(Unseen(init, a));
    assert x in e <==> x in init;
    assert x in Dedup(a + init) <==> x in init;
    assert Dedup(a) + e + [x] == Dedup(a) + (e + [x]);
  }

  /** The merge lists the base's ids first (first occurrences, in order), then
      the hit ids not already in the base, in order. */
  lemma MergeOrder(base: seq<string>, hitIds: seq<string>)
    ensures MergeSelectionIds(base, hitIds) == Dedup(base) + Dedup(Unseen(hitIds, base))
  {
    DedupAppend(base, hitIds);
  }

  /** A list without duplicates is its own deduplication. */
  lemma {:induction false} DedupNoDuplicates<T(!new)>(s: seq<T>)
    requires NoDuplicates(s)
    ensures Dedup(s) == s
    decreases |s|
  {
    if |s| > 0 {
      var init := s[..|s| - 1];
      DedupNoDuplicates(init);
      assert forall i :: 0 <= i < |init| ==> init[i] == s[i];
      assert s == init + [s[|s| - 1]];
    }
  }

  /** Nothing of `s` is unseen when all of it has been seen. */
  lemma UnseenEmpty<T(!new)>(s: seq<T>, seen: seq<T>)
    requires forall x :: x in s ==> x in seen
    ensures Unseen(s, seen) == []
  {
  }

  /** Merging a duplicate-free selection with itself gives it back. */
  lemma MergeSelf(a: seq<string>)
    requires NoDuplicates(a)
    ensures MergeSelectionIds(a, a) == a
  {
    MergeOrder(a, a);
    UnseenEmpty(a, a);
    DedupNoDuplicates(a);
    assert Dedup<string>([]) == [];
  }

  /** Merging the same hits a second time changes nothing. */
  lemma MergeIdempotent(a: seq<string>, b: seq<string>)
    ensures MergeSelectionIds(MergeSelectionIds(a, b), b) == MergeSelectionIds(a, b)
  {
    var m := MergeSelectionIds(a, b);
    MergeOrder(m, b);
    UnseenEmpty(b, m);
    DedupNoDuplicates(m);
    assert Dedup<string>([]) == [];
  }
}
