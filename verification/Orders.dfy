/** Comparators, sorting and the sort-then-compare idiom: `strings.Compare`, `slices.SortFunc`,
    `slicesMatch` and the two-field comparators of the webhook and of the status. */
module Orders {
  /** `strings.Compare`: lexicographic, with a result of -1, 0 or 1. */
  function Compare(a: string, b: string): (r: int)
    ensures -1 <= r <= 1
    ensures r == 0 <==> a == b
  {
    if a == [] then (if b == [] then 0 else -1)
    else if b == [] then 1
    else if a[0] < b[0] then -1
    else if a[0] > b[0] then 1
    else
      assert a == [a[0]] + a[1..] && b == [b[0]] + b[1..];
      Compare(a[1..], b[1..])
  }

  lemma {:induction false} CompareAntisymmetric(a: string, b: string)
    ensures Compare(a, b) == -Compare(b, a)
    decreases |a|
  {
    if a != [] && b != [] && a[0] == b[0] {
      CompareAntisymmetric(a[1..], b[1..]);
    }
  }

  lemma {:induction false} CompareTransitive(a: string, b: string, c: string)
    requires Compare(a, b) <= 0 && Compare(b, c) <= 0
    ensures Compare(a, c) <= 0
    ensures Compare(a, c) == 0 ==> a == b == c
    decreases |a|
  {
    if a != [] && b != [] && c != [] && a[0] == b[0] == c[0] {
      CompareTransitive(a[1..], b[1..], c[1..]);
    }
    if Compare(a, c) == 0 {
      CompareAntisymmetric(a, b);
    }
  }

  /** A comparator that orders any two values consistently. */
  ghost predicate Ordering<T(!new)>(cmp: (T, T) -> int) {
    && (forall x, y :: cmp(x, y) < 0 <==> cmp(y, x) > 0)
    && (forall x, y, z :: cmp(x, y) <= 0 && cmp(y, z) <= 0 ==> cmp(x, z) <= 0)
  }

  lemma Opposite<T(!new)>(cmp: (T, T) -> int, x: T, y: T)
    requires Ordering(cmp)
    ensures cmp(x, y) <= 0 <==> cmp(y, x) >= 0
    ensures cmp(x, y) == 0 <==> cmp(y, x) == 0
  {
  }

  lemma Chained<T(!new)>(cmp: (T, T) -> int, x: T, y: T, z: T)
    requires Ordering(cmp) && cmp(x, y) <= 0 && cmp(y, z) <= 0
    ensures cmp(x, z) <= 0
  {
  }

  lemma CompareOrdering()
    ensures Ordering(Compare)
  {
    forall x, y ensures Compare(x, y) < 0 <==> Compare(y, x) > 0 {
      CompareAntisymmetric(x, y);
    }
    forall x, y, z | Compare(x, y) <= 0 && Compare(y, z) <= 0 ensures Compare(x, z) <= 0 {
      CompareTransitive(x, y, z);
    }
  }

  /** Comparing two fields as `10*Compare(first) + Compare(second)`. */
  function ComparePair(a: (string, string), b: (string, string)): int {
    10 * Compare(a.0, b.0) + Compare(a.1, b.1)
  }

  /** The weighted sum is the lexicographic order of the two fields: total, and zero only on equal pairs. */
  lemma PairOrdering()
    ensures Ordering(ComparePair)
    ensures forall a, b :: ComparePair(a, b) == 0 <==> a == b
    ensures forall a, b :: ComparePair(a, b) < 0 <==> Compare(a.0, b.0) < 0 || (a.0 == b.0 && Compare(a.1, b.1) < 0)
  {
    forall a, b ensures ComparePair(a, b) == -ComparePair(b, a) {
      CompareAntisymmetric(a.0, b.0);
      CompareAntisymmetric(a.1, b.1);
    }
    forall a, b, c | ComparePair(a, b) <= 0 && ComparePair(b, c) <= 0 ensures ComparePair(a, c) <= 0 {
      CompareTransitive(a.0, b.0, c.0);
      if a.0 == b.0 == c.0 {
        CompareTransitive(a.1, b.1, c.1);
      }
    }
  }

  // ---------------------------------------------------------------- sorting

  ghost predicate Sorted<T>(cmp: (T, T) -> int, s: seq<T>) {
    forall i, j :: 0 <= i < j < |s| ==> cmp(s[i], s[j]) <= 0
  }

  function Insert<T>(cmp: (T, T) -> int, x: T, s: seq<T>): (r: seq<T>)
    ensures multiset(r) == multiset(s) + multiset{x}
  {
    if s == [] || cmp(x, s[0]) <= 0 then [x] + s
    else
      assert s == [s[0]] + s[1..];
      [s[0]] + Insert(cmp, x, s[1..])
  }

  lemma {:induction false} InsertSorted<T(!new)>(cmp: (T, T) -> int, x: T, s: seq<T>)
    requires Ordering(cmp) && Sorted(cmp, s)
    ensures Sorted(cmp, Insert(cmp, x, s))
  {
    hide Ordering;
    var r := Insert(cmp, x, s);
    if s == [] {
    } else if cmp(x, s[0]) <= 0 {
      forall j | 1 <= j < |s| ensures cmp(x, s[j]) <= 0 {
        Chained(cmp, x, s[0], s[j]);
      }
    } else {
      InsertSorted(cmp, x, s[1..]);
      var rest := Insert(cmp, x, s[1..]);
      Opposite(cmp, s[0], x);
      forall j | 1 <= j < |r| ensures cmp(r[0], r[j]) <= 0 {
        assert r[j] == rest[j - 1] && rest[j - 1] in multiset(rest);
      }
    }
  }

  function InsertionSort<T>(cmp: (T, T) -> int, s: seq<T>): (r: seq<T>)
    ensures multiset(r) == multiset(s)
  {
    if s == [] then []
    else
      assert s == [s[0]] + s[1..];
      Insert(cmp, s[0], InsertionSort(cmp, s[1..]))
  }

  lemma {:induction false} InsertionSortSorted<T(!new)>(cmp: (T, T) -> int, s: seq<T>)
    requires Ordering(cmp)
    ensures Sorted(cmp, InsertionSort(cmp, s))
  {
    if s != [] {
      InsertionSortSorted(cmp, s[1..]);
      InsertSorted(cmp, s[0], InsertionSort(cmp, s[1..]));
    }
  }

  /** `slices.SortFunc` on a clone.  It is not stable: which of several sorted permutations comes out
      is left open. */
  method SortFunc<T(!new)>(cmp: (T, T) -> int, s: seq<T>) returns (r: seq<T>)
    requires Ordering(cmp)
    ensures Sorted(cmp, r) && multiset(r) == multiset(s)
  {
    r := InsertionSort(cmp, s);
    InsertionSortSorted(cmp, s);
  }

  /** No two different elements compare as equal. */
  ghost predicate Separates<T>(cmp: (T, T) -> int, s: seq<T>) {
    forall i, j :: 0 <= i < |s| && 0 <= j < |s| && cmp(s[i], s[j]) == 0 ==> s[i] == s[j]
  }

  lemma Tail<T>(s: seq<T>)
    requires s != []
    ensures s == [s[0]] + s[1..] && multiset(s[1..]) == multiset(s) - multiset{s[0]}
  {
    assert s == [s[0]] + s[1..];
  }

  lemma SameHead<T(!new)>(cmp: (T, T) -> int, s: seq<T>, t: seq<T>)
    requires Ordering(cmp) && Separates(cmp, s)
    requires Sorted(cmp, s) && Sorted(cmp, t) && multiset(s) == multiset(t) && s != [] && t != []
    ensures s[0] == t[0]
  {
    hide Ordering;
    assert s[0] in multiset(t) && t[0] in multiset(s);
    if s[0] != t[0] {
      var i :| 0 <= i < |s| && s[i] == t[0];
      var j :| 0 <= j < |t| && t[j] == s[0];
      assert cmp(s[0], s[i]) <= 0 && cmp(t[0], t[j]) <= 0;
      Opposite(cmp, s[0], t[0]);
    }
  }

  /** A sequence whose elements the comparator tells apart has one sorted permutation. */
  lemma {:induction false} SortedUnique<T(!new)>(cmp: (T, T) -> int, s: seq<T>, t: seq<T>)
    requires Ordering(cmp) && Separates(cmp, s)
    requires Sorted(cmp, s) && Sorted(cmp, t) && multiset(s) == multiset(t)
    ensures s == t
    decreases |s|
  {
    hide Ordering;
    assert |s| == |multiset(s)| && |multiset(t)| == |t|;
    if s != [] {
      SameHead(cmp, s, t);
      Tail(s);
      Tail(t);
      SortedUnique(cmp, s[1..], t[1..]);
    }
  }

  /** Exchanging two elements that compare as equal keeps a sorted sequence sorted. */
  lemma SwapSorted<T(!new)>(cmp: (T, T) -> int, s: seq<T>, p: nat, q: nat)
    requires Ordering(cmp) && Sorted(cmp, s) && p < q < |s| && cmp(s[p], s[q]) == 0
    ensures var t := s[p := s[q]][q := s[p]]; Sorted(cmp, t) && multiset(t) == multiset(s)
  {
    var t := s[p := s[q]][q := s[p]];
    assert cmp(s[q], s[p]) == 0;
    forall i, j | 0 <= i < j < |t| ensures cmp(t[i], t[j]) <= 0 {
      if i == p && j != q {
        assert cmp(s[q], s[p]) <= 0 && cmp(s[p], s[j]) <= 0;
      } else if i == q {
        assert cmp(s[p], s[q]) <= 0 && cmp(s[q], s[j]) <= 0;
      } else if j == p {
        assert cmp(s[i], s[p]) <= 0 && cmp(s[p], s[q]) <= 0;
      } else if j == q && i != p {
        assert cmp(s[i], s[q]) <= 0 && cmp(s[q], s[p]) <= 0;
      }
    }
  }

  /** The result of sorting depends on nothing but the multiset of elements. */
  ghost predicate Canonical<T(!new)>(cmp: (T, T) -> int, s: seq<T>) {
    forall r, t :: Sorted(cmp, r) && Sorted(cmp, t) && multiset(r) == multiset(s) == multiset(t) ==> r == t
  }

  lemma SeparatesPermuted<T>(cmp: (T, T) -> int, s: seq<T>, r: seq<T>)
    requires Separates(cmp, s) && multiset(r) == multiset(s)
    ensures Separates(cmp, r)
  {
    forall i, j | 0 <= i < |r| && 0 <= j < |r| && cmp(r[i], r[j]) == 0 ensures r[i] == r[j] {
      assert r[i] in multiset(s) && r[j] in multiset(s);
    }
  }

  /** If two different elements tie, the sequence has two sorted permutations. */
  lemma TieSplits<T(!new)>(cmp: (T, T) -> int, s: seq<T>, x: T, y: T)
    requires Ordering(cmp) && x in s && y in s && x != y && cmp(x, y) == 0
    ensures !Canonical(cmp, s)
  {
    hide Ordering, InsertionSort;
    var r := InsertionSort(cmp, s);
    InsertionSortSorted(cmp, s);
    var i, j := Position(s, r, x), Position(s, r, y);
    var p, q := if i < j then i else j, if i < j then j else i;
    Opposite(cmp, x, y);
    SwapSorted(cmp, r, p, q);
    var t := r[p := r[q]][q := r[p]];
    assert t[p] != r[p];
  }

  ghost function Position<T>(s: seq<T>, r: seq<T>, x: T): (i: nat)
    requires multiset(r) == multiset(s) && x in s
    ensures i < |r| && r[i] == x
  {
    assert x in multiset(s) && x in multiset(r);
    var i :| 0 <= i < |r| && r[i] == x;
    i
  }

  /** Sorting is canonical exactly when the comparator tells the elements apart. */
  lemma CanonicalExactly<T(!new)>(cmp: (T, T) -> int, s: seq<T>)
    requires Ordering(cmp)
    ensures Canonical(cmp, s) <==> Separates(cmp, s)
  {
    hide Ordering;
    if Separates(cmp, s) {
      forall r, t | Sorted(cmp, r) && Sorted(cmp, t) && multiset(r) == multiset(s) == multiset(t) ensures r == t {
        SeparatesPermuted(cmp, s, r);
        SortedUnique(cmp, r, t);
      }
    } else {
      var i, j :| 0 <= i < |s| && 0 <= j < |s| && cmp(s[i], s[j]) == 0 && s[i] != s[j];
      TieSplits(cmp, s, s[i], s[j]);
    }
  }

  /** Sorting clones of two slices and comparing them decides whether they are permutations. */
  method SortedEqual<T(!new, ==)>(cmp: (T, T) -> int, a: seq<T>, b: seq<T>) returns (r: bool)
    requires Ordering(cmp) && forall x, y :: cmp(x, y) == 0 ==> x == y
    ensures r <==> multiset(a) == multiset(b)
  {
    var ac := SortFunc(cmp, a);
    var bc := SortFunc(cmp, b);
    if multiset(a) == multiset(b) {
      SortedUnique(cmp, ac, bc);
    }
    r := ac == bc;
  }

  /** `slicesMatch`: the early length test and the comparison of the sorted clones decide whether the two
      lists are permutations of each other. */
  predicate SlicesMatch(a: seq<string>, b: seq<string>)
    ensures SlicesMatch(a, b) <==> multiset(a) == multiset(b)
  {
    assert |multiset(a)| == |a| && |multiset(b)| == |b|;
    CompareOrdering();
    InsertionSortSorted(Compare, a);
    InsertionSortSorted(Compare, b);
    assert multiset(a) == multiset(b) ==> InsertionSort(Compare, a) == InsertionSort(Compare, b) by {
      if multiset(a) == multiset(b) {
        SortedUnique(Compare, InsertionSort(Compare, a), InsertionSort(Compare, b));
      }
    }
    |a| == |b| && InsertionSort(Compare, a) == InsertionSort(Compare, b)
  }

  /** `sets.List`: the elements of a set, each once, in ascending order. */
  method ListSet(elements: set<string>) returns (r: seq<string>)
    ensures Sorted(Compare, r) && multiset(r) == multiset(elements) && |r| == |elements|
    ensures forall x :: x in r <==> x in elements
  {
    r := [];
    var rest := elements;
    while rest != {}
      invariant rest <= elements && multiset(r) == multiset(elements - rest)
      decreases |rest|
    {
      var x :| x in rest;
      assert elements - (rest - {x}) == (elements - rest) + {x};
      r := r + [x];
      rest := rest - {x};
    }
    assert elements - rest == elements;
    CompareOrdering();
    r := SortFunc(Compare, r);
    assert |multiset(r)| == |r| && |multiset(elements)| == |elements|;
    assert forall x :: x in r <==> x in multiset(r);
    assert forall x :: x in elements <==> x in multiset(elements);
  }
}
