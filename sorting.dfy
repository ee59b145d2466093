/** `Array.prototype.sort` with a comparator: an in-place, stable reordering. A comparator
    `cmp` is represented by the relation `le(x, y) == (cmp(x, y) <= 0)`, which must be a
    total preorder for the result to be determined up to ties. */
module Sorting {

  ghost predicate TotalPreorder<T(!new)>(le: (T, T) -> bool) {
    && (forall x, y :: le(x, y) || le(y, x))
    && (forall x, y, z :: le(x, y) && le(y, z) ==> le(x, z))
  }

  predicate SortedBy<T>(s: seq<T>, le: (T, T) -> bool) {
    forall i, j :: 0 <= i < j < |s| ==> le(s[i], s[j])
  }

  /** Insertion sort: each new element moves left past the elements that must follow it. */
  method InsertionSort<T(!new)>(a: array<T>, le: (T, T) -> bool)
    requires TotalPreorder(le)
    modifies a
    ensures SortedBy(a[..], le)
    ensures multiset(a[..]) == old(multiset(a[..]))
  {
    var i := 0;
    while i < a.Length
      invariant 0 <= i <= a.Length
      invariant SortedBy(a[..i], le)
      invariant multiset(a[..]) == old(multiset(a[..]))
    {
      InsertAt(a, i, le);
      i := i + 1;
    }
    assert a[..] == a[..a.Length];
  }

  /** One step of the sort: `a[i]` moves left into the sorted prefix `a[..i]`. */
  method InsertAt<T(!new)>(a: array<T>, i: int, le: (T, T) -> bool)
    requires TotalPreorder(le)
    requires 0 <= i < a.Length && SortedBy(a[..i], le)
    modifies a
    ensures SortedBy(a[..i + 1], le)
    ensures multiset(a[..]) == old(multiset(a[..]))
  {
    var j := i;
    GapStart(a[..], i, le);
    while j > 0 && !le(a[j - 1], a[j])
      invariant 0 <= j <= i < a.Length
      invariant Gap(a[..], i, j, le)
      invariant multiset(a[..]) == old(multiset(a[..]))
    {
      ghost var b := a[..];
      a[j - 1], a[j] := a[j], a[j - 1];
      assert a[..] == b[j - 1 := b[j]][j := b[j - 1]];
      GapStep(b, i, j, le);
      j := j - 1;
    }
    GapDone(a[..], i, j, le);
  }

  /** While `s[j]` moves left, `s[..i + 1]` is sorted except around position `j`, and
      `s[j]` precedes everything after it. */
  predicate Gap<T>(s: seq<T>, i: int, j: int, le: (T, T) -> bool)
    requires 0 <= j <= i < |s|
  {
    && (forall p, q :: 0 <= p < q <= i && p != j && q != j ==> le(s[p], s[q]))
    && (forall q :: j < q <= i ==> le(s[j], s[q]))
  }

  lemma GapStart<T>(s: seq<T>, i: int, le: (T, T) -> bool)
    requires 0 <= i < |s| && SortedBy(s[..i], le)
    ensures Gap(s, i, i, le)
  {
    forall p, q | 0 <= p < q <= i && p != i && q != i
      ensures le(s[p], s[q])
    {
      assert s[..i][p] == s[p] && s[..i][q] == s[q];
    }
  }

  /** Exchanging `s[j - 1]` and `s[j]` when they are out of order moves the gap left and
      keeps the multiset. */
  lemma GapStep<T(!new)>(s: seq<T>, i: int, j: int, le: (T, T) -> bool)
    requires TotalPreorder(le)
    requires 0 < j <= i < |s| && Gap(s, i, j, le) && !le(s[j - 1], s[j])
    ensures Gap(s[j - 1 := s[j]][j := s[j - 1]], i, j - 1, le)
    ensures multiset(s[j - 1 := s[j]][j := s[j - 1]]) == multiset(s)
  {
    var t := s[j - 1 := s[j]][j := s[j - 1]];
    assert le(s[j], s[j - 1]);
    forall q | j - 1 < q <= i
      ensures le(t[j - 1], t[q])
    {
    }
  }

  lemma GapDone<T(!new)>(s: seq<T>, i: int, j: int, le: (T, T) -> bool)
    requires TotalPreorder(le)
    requires 0 <= j <= i < |s| && Gap(s, i, j, le) && (j == 0 || le(s[j - 1], s[j]))
    ensures SortedBy(s[..i + 1], le)
  {
    forall p, q | 0 <= p < q <= i
      ensures le(s[p], s[q])
    {
      if q == j {
        assert le(s[p], s[j - 1]) && le(s[j - 1], s[j]);
      }
    }
  }

  /** A sorted fresh copy of `s`: the `filter(...).sort(...)` path, where `filter` has
      already produced a new array. */
  method SortedCopy<T(!new)>(s: seq<T>, le: (T, T) -> bool) returns (a: array<T>)
    requires TotalPreorder(le)
    ensures fresh(a)
    ensures SortedBy(a[..], le)
    ensures multiset(a[..]) == multiset(s)
  {
    a := new T[|s|](i requires 0 <= i < |s| => s[i]);
    assert a[..] == s;
    InsertionSort(a, le);
  }

  /** Code-point lexicographic order on strings, standing in for `localeCompare(...) <= 0`. */
  predicate StrLe(a: string, b: string)
    decreases |a|
  {
    a == [] || (b != [] && (a[0] < b[0] || (a[0] == b[0] && StrLe(a[1..], b[1..]))))
  }

  lemma {:induction false} StrLeTotal(a: string, b: string)
    ensures StrLe(a, b) || StrLe(b, a)
    decreases |a|
  {
    if a != [] && b != [] && a[0] == b[0] {
      StrLeTotal(a[1..], b[1..]);
    }
  }

  lemma {:induction false} StrLeTransitive(a: string, b: string, c: string)
    requires StrLe(a, b) && StrLe(b, c)
    ensures StrLe(a, c)
    decreases |a|
  {
    if a != [] && b != [] && c != [] && a[0] == b[0] && b[0] == c[0] {
      StrLeTransitive(a[1..], b[1..], c[1..]);
    }
  }

  /** Only equal strings are ordered both ways, so the order is a total order on strings. */
  lemma {:induction false} StrLeAntisymmetric(a: string, b: string)
    requires StrLe(a, b) && StrLe(b, a)
    ensures a == b
    decreases |a|
  {
    if a != [] {
      StrLeAntisymmetric(a[1..], b[1..]);
      assert a == [a[0]] + a[1..] && b == [b[0]] + b[1..];
    }
  }
}
