/**
 * `Array.prototype.sort(compare)` as the pages use it. A comparator follows the
 * JavaScript convention: `cmp(a, b) > 0` means that `a` is placed after `b`.
 * ECMAScript requires the sort to be stable, so it is modelled as a stable
 * insertion sort: `SortSeq` is its functional specification, `SortInPlace` sorts
 * an array in place and is proved to produce exactly `SortSeq` of the old contents.
 */
module Sorting {
  import opened Seqs

  /** `a` must be placed after `b`. */
  predicate After<T>(cmp: (T, T) -> int, a: T, b: T) {
    cmp(a, b) > 0
  }

  /** Neither of the two has to be placed after the other: the comparator ties them. */
  predicate Tied<T>(cmp: (T, T) -> int, a: T, b: T) {
    !After(cmp, a, b) && !After(cmp, b, a)
  }

  /**
   * A comparator that sorts consistently: "after" is asymmetric and "not after"
   * is transitive (so ties form equivalence classes ordered totally).
   */
  ghost predicate Consistent<T(!new)>(cmp: (T, T) -> int) {
    && (forall a, b :: After(cmp, a, b) ==> !After(cmp, b, a))
    && (forall a, b, c :: !After(cmp, a, b) && !After(cmp, b, c) ==> !After(cmp, a, c))
  }

  /** No element has to be placed after an element that follows it. */
  ghost predicate Sorted<T>(cmp: (T, T) -> int, s: seq<T>) {
    forall i, j :: 0 <= i < j < |s| ==> !After(cmp, s[i], s[j])
  }

  /** Inserts `x` behind the last element of `s` that does not have to come after it. */
  function Insert<T>(s: seq<T>, x: T, cmp: (T, T) -> int): (r: seq<T>)
    ensures |r| == |s| + 1
  {
    if s == [] then [x]
    else if After(cmp, s[|s| - 1], x) then Insert(s[..|s| - 1], x, cmp) + [s[|s| - 1]]
    else s + [x]
  }

  /** Stable insertion sort: the elements of `s` are inserted one by one, left to right. */
  function SortSeq<T>(s: seq<T>, cmp: (T, T) -> int): (r: seq<T>)
    ensures |r| == |s|
  {
    if s == [] then []
    else Insert(SortSeq(s[..|s| - 1], cmp), s[|s| - 1], cmp)
  }

  lemma {:induction false} InsertPermutes<T>(s: seq<T>, x: T, cmp: (T, T) -> int)
    ensures multiset(Insert(s, x, cmp)) == multiset(s) + multiset{x}
    decreases |s|
  {
    if s != [] {
      var init, last := s[..|s| - 1], s[|s| - 1];
      assert s == init + [last];
      InsertPermutes(init, x, cmp);
    }
  }

  /** The sort only reorders: its result is a permutation of its input. */
  lemma {:induction false} SortSeqPermutes<T>(s: seq<T>, cmp: (T, T) -> int)
    ensures multiset(SortSeq(s, cmp)) == multiset(s)
    decreases |s|
  {
    if s != [] {
      var init, last := s[..|s| - 1], s[|s| - 1];
      assert s == init + [last];
      SortSeqPermutes(init, cmp);
      InsertPermutes(SortSeq(init, cmp), last, cmp);
    }
  }

  /** The predicate "tied with `p`", for filtering. */
  function TiedTo<T>(cmp: (T, T) -> int, p: T): T -> bool {
    x => Tied(cmp, x, p)
  }

  /** The elements of `s` that the comparator ties with `p`, in their order in `s`. */
  function TiedWith<T(!new)>(s: seq<T>, cmp: (T, T) -> int, p: T): seq<T> {
    Filter(s, TiedTo(cmp, p))
  }

  lemma {:induction false} InsertSorted<T(!new)>(s: seq<T>, x: T, cmp: (T, T) -> int)
    requires Consistent(cmp) && Sorted(cmp, s)
    ensures Sorted(cmp, Insert(s, x, cmp))
    decreases |s|
  {
    if s != [] {
      var init, last := s[..|s| - 1], s[|s| - 1];
      if After(cmp, last, x) {
        InsertSorted(init, x, cmp);
        InsertPermutes(init, x, cmp);
        var r := Insert(init, x, cmp);
        forall e | e in r ensures !After(cmp, e, last) {
          assert e in multiset(r);
          if e != x {
            assert e in init;
          }
        }
      } else {
        forall e | e in s ensures !After(cmp, e, x) {
          if e != last {
            var k :| 0 <= k < |s| && s[k] == e;
            assert !After(cmp, s[k], s[|s| - 1]);
          }
        }
      }
    }
  }

  lemma {:induction false} SortSeqSorted<T(!new)>(s: seq<T>, cmp: (T, T) -> int)
    requires Consistent(cmp)
    ensures Sorted(cmp, SortSeq(s, cmp))
    decreases |s|
  {
    if s != [] {
      SortSeqSorted(s[..|s| - 1], cmp);
      InsertSorted(SortSeq(s[..|s| - 1], cmp), s[|s| - 1], cmp);
    }
  }

  /** Two elements that must be ordered strictly cannot both be tied with the same `p`. */
  lemma NotBothTied<T(!new)>(cmp: (T, T) -> int, a: T, b: T, p: T)
    requires Consistent(cmp) && After(cmp, a, b)
    ensures !(TiedTo(cmp, p)(a) && TiedTo(cmp, p)(b))
  {
  }

  /**
   * The step of `InsertTiedWith` where `x` passes over `last`: when not both are tied
   * with `p`, the tied run of `init` + `[x]` + `[last]` is that of `init` + `[last]` + `[x]`.
   */
  lemma PassOverTiedWith<T(!new)>(init: seq<T>, last: T, x: T, cmp: (T, T) -> int, p: T)
    requires !(TiedTo(cmp, p)(last) && TiedTo(cmp, p)(x))
    requires TiedWith(Insert(init, x, cmp), cmp, p) == TiedWith(init, cmp, p) + TiedWith([x], cmp, p)
    ensures TiedWith(Insert(init, x, cmp) + [last], cmp, p) == TiedWith(init + [last], cmp, p) + TiedWith([x], cmp, p)
  {
    var t := TiedTo(cmp, p);
    FilterConcat(Insert(init, x, cmp), [last], t);
    FilterConcat(init, [last], t);
    FilterSingleton(x, t);
    FilterSingleton(last, t);
  }

  /** Inserting `x` appends it to the run of elements tied with `p` when it is itself tied with `p`. */
  lemma {:induction false} InsertTiedWith<T(!new)>(s: seq<T>, x: T, cmp: (T, T) -> int, p: T)
    requires Consistent(cmp)
    ensures TiedWith(Insert(s, x, cmp), cmp, p) == TiedWith(s, cmp, p) + TiedWith([x], cmp, p)
    decreases |s|
  {
    if s == [] {
      assert Insert(s, x, cmp) == [] + [x];
    } else {
      var init, last := s[..|s| - 1], s[|s| - 1];
      assert s == init + [last];
      if After(cmp, last, x) {
        InsertTiedWith(init, x, cmp, p);
        NotBothTied(cmp, last, x, p);
        PassOverTiedWith(init, last, x, cmp, p);
      } else {
        FilterConcat(s, [x], TiedTo(cmp, p));
      }
    }
  }

  /** Stability: the elements tied with any `p` keep their relative input order. */
  lemma {:induction false} SortSeqStable<T(!new)>(s: seq<T>, cmp: (T, T) -> int, p: T)
    requires Consistent(cmp)
    ensures TiedWith(SortSeq(s, cmp), cmp, p) == TiedWith(s, cmp, p)
    decreases |s|
  {
    if s != [] {
      var init, last := s[..|s| - 1], s[|s| - 1];
      assert s == init + [last];
      SortSeqStable(init, cmp, p);
      InsertTiedWith(SortSeq(init, cmp), last, cmp, p);
      FilterConcat(init, [last], TiedTo(cmp, p));
    }
  }

  /**
   * Where `x` lands: behind position `j` when the element before `j` (if any) need not
   * come after `x` and every element from `j` on must.
   */
  lemma {:induction false} InsertAt<T>(s: seq<T>, j: nat, x: T, cmp: (T, T) -> int)
    requires j <= |s| && (j == 0 || !After(cmp, s[j - 1], x))
    requires forall k :: j <= k < |s| ==> After(cmp, s[k], x)
    ensures Insert(s, x, cmp) == s[..j] + [x] + s[j..]
    decreases |s|
  {
    if |s| == j {
      assert s[..j] == s && s[j..] == [];
    } else {
      var init := s[..|s| - 1];
      InsertAt(init, j, x, cmp);
      assert init[..j] == s[..j];
      assert init[j..] + [s[|s| - 1]] == s[j..];
    }
  }

  /**
   * The loop of one insertion step: shifts right by one place, from position `i - 1`
   * downwards, the elements of the sorted prefix that must come after `x`, and stops
   * at the hole `j` where `x` belongs.
   */
  method ShiftPastAfter<T>(a: array<T>, i: nat, x: T, cmp: (T, T) -> int, ghost sorted: seq<T>) returns (j: nat)
    requires i < a.Length && |sorted| == i
    requires forall k :: 0 <= k < i ==> a[k] == sorted[k]
    modifies a
    ensures j <= i
    ensures j == 0 || !After(cmp, sorted[j - 1], x)
    ensures forall k :: j <= k < i ==> After(cmp, sorted[k], x)
    ensures forall k :: 0 <= k < j ==> a[k] == sorted[k]
    ensures forall k :: j < k <= i ==> a[k] == sorted[k - 1]
    ensures forall k :: i < k < a.Length ==> a[k] == old(a[k])
  {
    j := i;
    while j > 0 && After(cmp, a[j - 1], x)
      invariant 0 <= j <= i
      invariant forall k :: j <= k < i ==> After(cmp, sorted[k], x)
      invariant forall k :: 0 <= k < j ==> a[k] == sorted[k]
      invariant forall k :: j < k <= i ==> a[k] == sorted[k - 1]
      invariant forall k :: i < k < a.Length ==> a[k] == old(a[k])
    {
      a[j] := a[j - 1];
      j := j - 1;
    }
  }

  /** One step of the insertion sort: moves `a[i]` left past the elements that must follow it. */
  method InsertInPlace<T>(a: array<T>, i: nat, cmp: (T, T) -> int)
    requires i < a.Length
    modifies a
    ensures a[..i + 1] == Insert(old(a[..i]), old(a[i]), cmp)
    ensures a[i + 1..] == old(a[i + 1..])
  {
    var x := a[i];
    ghost var sorted := a[..i];
    var j := ShiftPastAfter(a, i, x, cmp, sorted);
    InsertAt(sorted, j, x, cmp);
    a[j] := x;
    ghost var r := sorted[..j] + [x] + sorted[j..];
    assert forall k :: 0 <= k <= i ==> a[k] == r[k];
    assert a[..i + 1] == r;
    assert forall k :: i < k < a.Length ==> a[k] == old(a[k]);
    assert a[i + 1..] == old(a[i + 1..]);
  }

  /** The in-place sort of `result.sort(compare)`. */
  method SortInPlace<T>(a: array<T>, cmp: (T, T) -> int)
    modifies a
    ensures a[..] == SortSeq(old(a[..]), cmp)
  {
    ghost var input := a[..];
    var i := 0;
    while i < a.Length
      invariant 0 <= i <= a.Length
      invariant a[..i] == SortSeq(input[..i], cmp)
      invariant a[i..] == input[i..]
    {
      assert input[..i + 1][..i] == input[..i];
      assert SortSeq(input[..i + 1], cmp) == Insert(SortSeq(input[..i], cmp), input[i], cmp);
      InsertInPlace(a, i, cmp);
      assert a[..i + 1] == SortSeq(input[..i + 1], cmp);
      i := i + 1;
    }
    assert input[..a.Length] == input;
  }
}
