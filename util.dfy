/** Small building blocks shared by the whole model: an optional value (the
    source's `undefined`/`null`), Math.min/Math.max/Math.abs over exact reals,
    the minimum and maximum of a list, and the array searches (`find`,
    `filter`) the source leans on. */
module Util {

  datatype Option<+T> = None | Some(value: T) {
    /** `value ?? default` */
    function GetOr(default: T): T {
      match this
      case Some(v) => v
      case None => default
    }

    /** `value ?? other`, both optional */
    function OrElse(other: Option<T>): Option<T> {
      if Some? then this else other
    }
  }

  function Min(a: real, b: real): real { if a <= b then a else b }

  function Max(a: real, b: real): real { if a >= b then a else b }

  function Abs(a: real): real { if a < 0.0 then -a else a }

  /** `Math.min(...xs)` for a non-empty list, folded left to right as the loops
      of the source fold it. */
  function SeqMin(xs: seq<real>): (m: real)
    requires |xs| > 0
    ensures forall i :: 0 <= i < |xs| ==> m <= xs[i]
    ensures exists i :: 0 <= i < |xs| && m == xs[i]
  {
    if |xs| == 1 then xs[0]
    else
      var rest := SeqMin(xs[..|xs| - 1]);
      assert forall i :: 0 <= i < |xs| - 1 ==> xs[..|xs| - 1][i] == xs[i];
      Min(rest, xs[|xs| - 1])
  }

  /** `Math.max(...xs)` for a non-empty list. */
  function SeqMax(xs: seq<real>): (m: real)
    requires |xs| > 0
    ensures forall i :: 0 <= i < |xs| ==> xs[i] <= m
    ensures exists i :: 0 <= i < |xs| && m == xs[i]
  {
    if |xs| == 1 then xs[0]
    else
      var rest := SeqMax(xs[..|xs| - 1]);
      assert forall i :: 0 <= i < |xs| - 1 ==> xs[..|xs| - 1][i] == xs[i];
      Max(rest, xs[|xs| - 1])
  }

  /** One more step of the running minimum over a prefix. */
  lemma SeqMinStep(xs: seq<real>, i: nat)
    requires 0 < i < |xs|
    ensures SeqMin(xs[..i + 1]) == Min(SeqMin(xs[..i]), xs[i])
  {
    assert xs[..i + 1][..i] == xs[..i];
  }

  /** One more step of the running maximum over a prefix. */
  lemma SeqMaxStep(xs: seq<real>, i: nat)
    requires 0 < i < |xs|
    ensures SeqMax(xs[..i + 1]) == Max(SeqMax(xs[..i]), xs[i])
  {
    assert xs[..i + 1][..i] == xs[..i];
  }

  /** `Array.prototype.find`: the first element satisfying `p`. */
  function FindFirst<T>(s: seq<T>, p: T -> bool): (r: Option<T>)
    ensures r.None? <==> forall i :: 0 <= i < |s| ==> !p(s[i])
    ensures r.Some? ==> exists i :: 0 <= i < |s| && s[i] == r.value && p(s[i]) &&
                                    forall j :: 0 <= j < i ==> !p(s[j])
  {
    if |s| == 0 then None
    else if p(s[0]) then Some(s[0])
    else
      var r := FindFirst(s[1..], p);
      assert forall i :: 1 <= i < |s| ==> s[1..][i - 1] == s[i];
      r
  }

  /** `i` is the position of the last element of `s` satisfying `p`. */
  predicate IsLastMatch<T>(s: seq<T>, p: T -> bool, i: int) {
    0 <= i < |s| && p(s[i]) && forall j :: i < j < |s| ==> !p(s[j])
  }

  /** The last element satisfying `p`: what `new Map(list.map(u => [u.id, u])).get(id)`
      yields, since a later entry overwrites an earlier one with the same key. */
  function FindLast<T>(s: seq<T>, p: T -> bool): (r: Option<T>)
    ensures r.None? <==> forall i :: 0 <= i < |s| ==> !p(s[i])
    ensures r.Some? ==> exists i :: IsLastMatch(s, p, i) && s[i] == r.value
  {
    if |s| == 0 then None
    else if p(s[|s| - 1]) then
      assert IsLastMatch(s, p, |s| - 1);
      Some(s[|s| - 1])
    else
      var init := s[..|s| - 1];
      var r := FindLast(init, p);
      assert forall i :: 0 <= i < |init| ==> init[i] == s[i];
      assert r.Some? ==> exists i :: IsLastMatch(s, p, i) && s[i] == r.value by {
        if r.Some? {
          var i :| IsLastMatch(init, p, i) && init[i] == r.value;
          assert IsLastMatch(s, p, i);
        }
      }
      r
  }

  /** `Array.prototype.filter`, which keeps the order of what it keeps. */
  function Filter<T(!new)>(s: seq<T>, keep: T -> bool): (r: seq<T>)
    ensures |r| <= |s|
    ensures forall x :: x in r <==> x in s && keep(x)
  {
    if |s| == 0 then []
    else
      var rest := Filter(s[1..], keep);
      assert forall x :: x in s <==> x == s[0] || x in s[1..];
      if keep(s[0]) then [s[0]] + rest else rest
  }

  /** `Array.prototype.map`. */
  function Map<T, U>(s: seq<T>, f: T -> U): (r: seq<U>)
    ensures |r| == |s| && forall i :: 0 <= i < |s| ==> r[i] == f(s[i])
  {
    seq(|s|, i requires 0 <= i < |s| => f(s[i]))
  }

  lemma MapCons<T, U>(x: T, s: seq<T>, f: T -> U)
    ensures Map([x] + s, f) == [f(x)] + Map(s, f)
  {
    assert forall i :: 1 <= i < |s| + 1 ==> ([x] + s)[i] == s[i - 1];
  }

  /** An element that is kept has a position in the filtered sequence. */
  lemma FilterIndex<T(!new)>(s: seq<T>, keep: T -> bool, i: int) returns (j: int)
    requires 0 <= i < |s| && keep(s[i])
    ensures 0 <= j < |Filter(s, keep)| && Filter(s, keep)[j] == s[i]
  {
    assert s[i] in Filter(s, keep);
    j :| 0 <= j < |Filter(s, keep)| && Filter(s, keep)[j] == s[i];
  }

  lemma {:induction false} FilterAppend<T(!new)>(a: seq<T>, b: seq<T>, keep: T -> bool)
    ensures Filter(a + b, keep) == Filter(a, keep) + Filter(b, keep)
  {
    if |a| == 0 {
      assert a + b == b;
    } else {
      assert (a + b)[1..] == a[1..] + b;
      FilterAppend(a[1..], b, keep);
    }
  }

  lemma {:induction false} FilterKeepsAll<T(!new)>(s: seq<T>, keep: T -> bool)
    requires forall i :: 0 <= i < |s| ==> keep(s[i])
    ensures Filter(s, keep) == s
  {
    if |s| > 0 {
      FilterKeepsAll(s[1..], keep);
    }
  }

  /** Two tests that agree on every element keep the same elements. */
  lemma {:induction false} FilterCongruent<T(!new)>(s: seq<T>, p: T -> bool, q: T -> bool)
    requires forall i :: 0 <= i < |s| ==> p(s[i]) == q(s[i])
    ensures Filter(s, p) == Filter(s, q)
  {
    if |s| > 0 {
      FilterCongruent(s[1..], p, q);
    }
  }
}
