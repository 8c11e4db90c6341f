/**
 * The Kotlin collection operations the repositories apply to their lists:
 * `count { }`, `filter { }`, `removeAll(set)`, `indexOf`.
 */
module Sequences {

  /** `List.count(predicate)`. */
  function Count<T>(s: seq<T>, p: T -> bool): (r: nat)
    ensures r <= |s|
  {
    if s == [] then 0 else Count(s[..|s| - 1], p) + (if p(s[|s| - 1]) then 1 else 0)
  }

  /** `List.filter(predicate)`: the elements satisfying `p`, in their original order. */
  function Filter<T>(s: seq<T>, p: T -> bool): (r: seq<T>)
    ensures |r| == Count(s, p)
    ensures forall i | 0 <= i < |r| :: r[i] in s && p(r[i])
    ensures forall i | 0 <= i < |s| :: p(s[i]) ==> s[i] in r
  {
    if s == [] then [] else Filter(s[..|s| - 1], p) + (if p(s[|s| - 1]) then [s[|s| - 1]] else [])
  }

  /** Filtering distributes over concatenation: relative order is kept. */
  lemma {:induction false} FilterAppend<T>(a: seq<T>, b: seq<T>, p: T -> bool)
    ensures Filter(a + b, p) == Filter(a, p) + Filter(b, p)
    decreases |b|
  {
    if b == [] {
      assert a + b == a;
    } else {
      var b' := b[..|b| - 1];
      assert (a + b)[..|a + b| - 1] == a + b';
      FilterAppend(a, b', p);
    }
  }

  /** Filtering a sequence with a new first element. */
  lemma FilterCons<T>(x: T, s: seq<T>, p: T -> bool)
    ensures Filter([x] + s, p) == (if p(x) then [x] else []) + Filter(s, p)
  {
    FilterAppend([x], s, p);
    assert Filter([x], p) == (if p(x) then [x] else []) by {
      assert [x][..0] == [];
    }
  }

  /** Two neighbours that never both pass can trade places without changing the filter. */
  lemma FilterSwap<T>(a: T, b: T, s: seq<T>, p: T -> bool)
    requires !(p(a) && p(b))
    ensures Filter([a] + ([b] + s), p) == Filter([b] + ([a] + s), p)
  {
    if p(a) {
      calc {
        Filter([a] + ([b] + s), p);
        { FilterCons(a, [b] + s, p); }
        [a] + Filter([b] + s, p);
        { FilterCons(b, s, p); }
        [a] + Filter(s, p);
        { FilterCons(a, s, p); }
        Filter([a] + s, p);
        { FilterCons(b, [a] + s, p); }
        Filter([b] + ([a] + s), p);
      }
    } else {
      calc {
        Filter([a] + ([b] + s), p);
        { FilterCons(a, [b] + s, p); }
        Filter([b] + s, p);
        { FilterCons(b, s, p); }
        (if p(b) then [b] else []) + Filter(s, p);
        { FilterCons(a, s, p); }
        (if p(b) then [b] else []) + Filter([a] + s, p);
        { FilterCons(b, [a] + s, p); }
        Filter([b] + ([a] + s), p);
      }
    }
  }

  /** Counting an implied predicate never gives less. */
  lemma {:induction false} CountMonotone<T>(s: seq<T>, p: T -> bool, q: T -> bool)
    requires forall x :: p(x) ==> q(x)
    ensures Count(s, p) <= Count(s, q)
  {
    if s != [] {
      CountMonotone(s[..|s| - 1], p, q);
    }
  }

  /** A predicate and its negation split the sequence. */
  lemma {:induction false} CountComplement<T>(s: seq<T>, p: T -> bool, q: T -> bool)
    requires forall x :: q(x) == !p(x)
    ensures Count(s, p) + Count(s, q) == |s|
  {
    if s != [] {
      CountComplement(s[..|s| - 1], p, q);
    }
  }

  /** The count is zero exactly when no element satisfies the predicate. */
  lemma {:induction false} CountZero<T>(s: seq<T>, p: T -> bool)
    ensures Count(s, p) == 0 <==> forall i | 0 <= i < |s| :: !p(s[i])
  {
    if s != [] {
      CountZero(s[..|s| - 1], p);
      assert forall i | 0 <= i < |s| - 1 :: s[..|s| - 1][i] == s[i];
    }
  }

  /**
   * Replacing one element changes the count by what the old element
   * contributed and what the new one contributes, and by nothing else.
   */
  lemma {:induction false} CountUpdate<T>(s: seq<T>, i: nat, x: T, p: T -> bool)
    requires i < |s|
    ensures Count(s[i := x], p) + (if p(s[i]) then 1 else 0) == Count(s, p) + (if p(x) then 1 else 0)
    decreases |s|
  {
    var n := |s| - 1;
    if i == n {
      assert s[i := x][..n] == s[..n];
    } else {
      assert s[i := x][..n] == s[..n][i := x];
      CountUpdate(s[..n], i, x, p);
    }
  }

  /**
   * `MutableList.removeAt(index)`: the element at `i` is gone, the ones
   * before it stay, the ones after it move down by one.
   */
  function RemoveAt<T>(s: seq<T>, i: nat): (r: seq<T>)
    requires i < |s|
    ensures |r| == |s| - 1
    ensures forall k | 0 <= k < i :: r[k] == s[k]
    ensures forall k | i <= k < |r| :: r[k] == s[k + 1]
    ensures multiset(r) + multiset{s[i]} == multiset(s)
  {
    assert s == s[..i] + [s[i]] + s[i + 1..];
    s[..i] + s[i + 1..]
  }

  /** `List.toSet()`. */
  function ToSet<T>(s: seq<T>): (r: set<T>)
    ensures forall i | 0 <= i < |s| :: s[i] in r
    ensures forall x | x in r :: x in s
  {
    set x | x in s
  }

  /**
   * `MutableList.removeAll(elements)`: every element equal to a member of
   * `xs` is dropped, the others stay in their relative order.
   */
  function RemoveAll<T(==)>(s: seq<T>, xs: set<T>): (r: seq<T>)
    ensures forall i | 0 <= i < |r| :: r[i] in s && r[i] !in xs
    ensures forall i | 0 <= i < |s| :: s[i] !in xs ==> s[i] in r
    ensures |r| <= |s|
  {
    if s == [] then [] else RemoveAll(s[..|s| - 1], xs) + (if s[|s| - 1] in xs then [] else [s[|s| - 1]])
  }

  /** Removal distributes over concatenation: it keeps relative order. */
  lemma {:induction false} RemoveAllAppend<T>(a: seq<T>, b: seq<T>, xs: set<T>)
    ensures RemoveAll(a + b, xs) == RemoveAll(a, xs) + RemoveAll(b, xs)
    decreases |b|
  {
    if b == [] {
      assert a + b == a;
    } else {
      var b' := b[..|b| - 1];
      assert (a + b)[..|a + b| - 1] == a + b';
      RemoveAllAppend(a, b', xs);
    }
  }

  /**
   * The list shrinks exactly when some element was a member of `xs`, which is
   * when `removeAll` reports a change; otherwise it is returned unchanged.
   */
  lemma {:induction false} RemoveAllChanged<T>(s: seq<T>, xs: set<T>)
    ensures |RemoveAll(s, xs)| < |s| <==> exists i | 0 <= i < |s| :: s[i] in xs
    ensures (forall i | 0 <= i < |s| :: s[i] !in xs) ==> RemoveAll(s, xs) == s
  {
    if s != [] {
      var init := s[..|s| - 1];
      RemoveAllChanged(init, xs);
      assert forall i | 0 <= i < |init| :: init[i] == s[i];
      assert s == init + [s[|s| - 1]];
      if exists i | 0 <= i < |init| :: init[i] in xs {
        var i :| 0 <= i < |init| && init[i] in xs;
        assert s[i] in xs;
      }
    }
  }

  /** `List.indexOf(element)`: the first index holding an equal element, or -1. */
  function IndexOf<T(==)>(s: seq<T>, x: T): (r: int)
    ensures -1 <= r < |s|
    ensures r == -1 <==> x !in s
    ensures r >= 0 ==> s[r] == x && x !in s[..r]
  {
    if s == [] then -1
    else if s[0] == x then 0
    else
      var k := IndexOf(s[1..], x);
      assert x in s[1..] ==> x in s;
      assert s[1..][..if k < 0 then 0 else k] == s[1..1 + if k < 0 then 0 else k];
      if k < 0 then -1 else k + 1
  }
}
