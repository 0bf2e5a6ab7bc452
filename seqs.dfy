/** `Array.prototype.filter` on sequences, and the algebra of filters the queries rely on. */
module Seqs {

  /** The elements of `s` for which `keep` holds, in their order in `s`. */
  function Filter<T(!new)>(s: seq<T>, keep: T -> bool): (r: seq<T>)
    ensures |r| <= |s|
  {
    if s == [] then []
    else Filter(s[..|s| - 1], keep) + (if keep(s[|s| - 1]) then [s[|s| - 1]] else [])
  }

  /** Filtering keeps every occurrence of the kept elements and drops all the others. */
  lemma {:induction false} FilterCount<T(!new)>(s: seq<T>, keep: T -> bool)
    ensures forall x :: multiset(Filter(s, keep))[x] == if keep(x) then multiset(s)[x] else 0
    ensures forall x :: x in Filter(s, keep) <==> x in s && keep(x)
    decreases |s|
  {
    if s != [] {
      var init, last := s[..|s| - 1], s[|s| - 1];
      assert s == init + [last];
      FilterCount(init, keep);
    }
  }

  lemma FilterSingleton<T(!new)>(x: T, keep: T -> bool)
    ensures Filter([x], keep) == if keep(x) then [x] else []
  {
    assert [x][..0] == [];
  }

  lemma {:induction false} FilterConcat<T(!new)>(a: seq<T>, b: seq<T>, keep: T -> bool)
    ensures Filter(a + b, keep) == Filter(a, keep) + Filter(b, keep)
    decreases |b|
  {
    if b != [] {
      var init := b[..|b| - 1];
      assert (a + b)[..|a + b| - 1] == a + init;
      FilterConcat(a, init, keep);
    } else {
      assert a + b == a;
    }
  }

  /** Filters whose predicates agree everywhere give the same result. */
  lemma {:induction false} FilterExt<T(!new)>(s: seq<T>, f: T -> bool, g: T -> bool)
    requires forall x :: f(x) == g(x)
    ensures Filter(s, f) == Filter(s, g)
    decreases |s|
  {
    if s != [] {
      FilterExt(s[..|s| - 1], f, g);
    }
  }

  /** Filtering by `f` and then by `g` is filtering once by their conjunction `h`. */
  lemma {:induction false} FilterFuse<T(!new)>(s: seq<T>, f: T -> bool, g: T -> bool, h: T -> bool)
    requires forall x :: h(x) == (f(x) && g(x))
    ensures Filter(Filter(s, f), g) == Filter(s, h)
    decreases |s|
  {
    if s != [] {
      var init, last := s[..|s| - 1], s[|s| - 1];
      FilterFuse(init, f, g, h);
      FilterConcat(Filter(init, f), if f(last) then [last] else [], g);
      if f(last) {
        assert Filter([last], g) == (if g(last) then [last] else []) by {
          assert [last][..0] == [];
        }
      }
    }
  }

  /** Two filters commute. */
  lemma FilterCommute<T(!new)>(s: seq<T>, f: T -> bool, g: T -> bool)
    ensures Filter(Filter(s, f), g) == Filter(Filter(s, g), f)
  {
    var h := x => f(x) && g(x);
    FilterFuse(s, f, g, h);
    FilterFuse(s, g, f, h);
  }

  /** A filter that keeps every element of its input returns that input. */
  lemma {:induction false} FilterAll<T(!new)>(s: seq<T>, keep: T -> bool)
    requires forall x :: x in s ==> keep(x)
    ensures Filter(s, keep) == s
  {
    if s != [] {
      FilterAll(s[..|s| - 1], keep);
      assert s == s[..|s| - 1] + [s[|s| - 1]];
    }
  }

  /** The position of the first occurrence of `x` in `s`. */
  function FirstIndex<T(==)>(s: seq<T>, x: T): (k: nat)
    requires x in s
    ensures k < |s| && s[k] == x
    ensures forall j :: 0 <= j < k ==> s[j] != x
  {
    if s[0] == x then 0 else 1 + FirstIndex(s[1..], x)
  }

  /** Appending elements does not move a first occurrence. */
  lemma FirstIndexPrefix<T>(s: seq<T>, t: seq<T>, x: T)
    requires x in s
    ensures FirstIndex(s + t, x) == FirstIndex(s, x)
  {
    var k, m := FirstIndex(s + t, x), FirstIndex(s, x);
    assert (s + t)[m] == x;
  }

  /**
   * `[...new Set(s)]`: the elements of `s` without repetition, each where it first
   * occurs (a `Set` iterates in insertion order).
   */
  function Dedup<T(==)>(s: seq<T>): (r: seq<T>)
    ensures |r| <= |s|
  {
    if s == [] then []
    else if s[|s| - 1] in s[..|s| - 1] then Dedup(s[..|s| - 1])
    else Dedup(s[..|s| - 1]) + [s[|s| - 1]]
  }

  /**
   * `Dedup(s)` holds exactly the elements of `s`, and lists them in the order of
   * their first occurrences in `s`, so none twice.
   */
  lemma {:induction false} DedupSpec<T>(s: seq<T>)
    ensures forall x :: x in Dedup(s) <==> x in s
    ensures forall i, j :: 0 <= i < j < |Dedup(s)| ==>
              Dedup(s)[i] in s && Dedup(s)[j] in s &&
              FirstIndex(s, Dedup(s)[i]) < FirstIndex(s, Dedup(s)[j])
    ensures forall i, j :: 0 <= i < j < |Dedup(s)| ==> Dedup(s)[i] != Dedup(s)[j]
  {
    if s != [] {
      var init, last := s[..|s| - 1], s[|s| - 1];
      assert s == init + [last];
      DedupSpec(init);
      var d := Dedup(init);
      forall x | x in init
        ensures FirstIndex(s, x) == FirstIndex(init, x)
      {
        FirstIndexPrefix(init, [last], x);
      }
      if last !in init {
        assert FirstIndex(s, last) == |init|;
        assert Dedup(s) == d + [last];
        forall i, j | 0 <= i < j < |Dedup(s)|
          ensures FirstIndex(s, Dedup(s)[i]) < FirstIndex(s, Dedup(s)[j])
        {
          if j == |d| {
            assert Dedup(s)[i] == d[i];
          } else {
            assert Dedup(s)[i] == d[i] && Dedup(s)[j] == d[j];
          }
        }
      }
    }
  }

  /** Deduplicating four, two and two repetitions of three distinct values. */
  lemma DedupRuns<T>(a: T, b: T, d: T)
    requires a != b && b != d && a != d
    ensures Dedup([a, a, a, a, b, b, d, d]) == [a, b, d]
  {
    var s := [a, a, a, a, b, b, d, d];
    assert s[..1] == [a] && s[..1][..0] == [];
    assert s[..2][..1] == s[..1] && s[..3][..2] == s[..2] && s[..4][..3] == s[..3];
    assert s[..5][..4] == s[..4] && s[..6][..5] == s[..5] && s[..7][..6] == s[..6];
    assert s[..8][..7] == s[..7] && s[..8] == s;
    assert Dedup(s[..1]) == [a];
    assert Dedup(s[..2]) == [a];
    assert Dedup(s[..3]) == [a];
    assert Dedup(s[..4]) == [a];
    assert Dedup(s[..5]) == [a, b];
    assert Dedup(s[..6]) == [a, b];
    assert Dedup(s[..7]) == [a, b, d];
  }
}
