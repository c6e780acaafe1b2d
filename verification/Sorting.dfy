/** Sorting by a total order, as the collectors and the sweeps use it.

  Python's built-in sort is modelled by insertion sort. Callers rely on two facts only:
  the result is a sorted permutation of the input, and there is just one such sequence,
  so sorting forgets the order in which the elements arrived.
 */
module Sorting {

  ghost predicate TotalOrder<T(!new)>(le: (T, T) -> bool) {
    && (forall x, y :: le(x, y) || le(y, x))
    && (forall x, y :: le(x, y) && le(y, x) ==> x == y)
    && (forall x, y, z :: le(x, y) && le(y, z) ==> le(x, z))
  }

  ghost predicate Sorted<T>(le: (T, T) -> bool, s: seq<T>) {
    forall i, j :: 0 <= i < j < |s| ==> le(s[i], s[j])
  }

  function Insert<T>(le: (T, T) -> bool, x: T, s: seq<T>): seq<T> {
    if s == [] then [x]
    else if le(x, s[0]) then [x] + s
    else [s[0]] + Insert(le, x, s[1..])
  }

  function Sort<T>(le: (T, T) -> bool, s: seq<T>): seq<T> {
    if s == [] then [] else Insert(le, s[0], Sort(le, s[1..]))
  }

  lemma {:induction false} InsertPermutes<T>(le: (T, T) -> bool, x: T, s: seq<T>)
    ensures multiset(Insert(le, x, s)) == multiset{x} + multiset(s)
  {
    if s == [] {
    } else if le(x, s[0]) {
    } else {
      InsertPermutes(le, x, s[1..]);
      assert s == [s[0]] + s[1..];
    }
  }

  lemma {:induction false} InsertKeepsSorted<T(!new)>(le: (T, T) -> bool, x: T, s: seq<T>)
    requires TotalOrder(le) && Sorted(le, s)
    ensures Sorted(le, Insert(le, x, s))
  {
    if s == [] {
    } else if le(x, s[0]) {
    } else {
      var rest := s[1..];
      InsertKeepsSorted(le, x, rest);
      InsertPermutes(le, x, rest);
      var r := Insert(le, x, rest);
      forall y | y in r ensures le(s[0], y) {
        assert y in multiset(r);
        if y != x {
          assert y in multiset(rest);
        }
      }
    }
  }

  /** The result of sorting is a permutation of the input. */
  lemma {:induction false} SortPermutes<T>(le: (T, T) -> bool, s: seq<T>)
    ensures multiset(Sort(le, s)) == multiset(s)
    ensures |Sort(le, s)| == |s|
  {
    if s != [] {
      SortPermutes(le, s[1..]);
      InsertPermutes(le, s[0], Sort(le, s[1..]));
      assert s == [s[0]] + s[1..];
    }
    assert |multiset(Sort(le, s))| == |multiset(s)|;
  }

  /** The result of sorting is sorted. */
  lemma {:induction false} SortSorts<T(!new)>(le: (T, T) -> bool, s: seq<T>)
    requires TotalOrder(le)
    ensures Sorted(le, Sort(le, s))
  {
    if s != [] {
      SortSorts(le, s[1..]);
      InsertKeepsSorted(le, s[0], Sort(le, s[1..]));
    }
  }

  /** A multiset has at most one sorted arrangement. */
  lemma {:induction false} SortedIsUnique<T(!new)>(le: (T, T) -> bool, a: seq<T>, b: seq<T>)
    requires TotalOrder(le) && Sorted(le, a) && Sorted(le, b)
    requires multiset(a) == multiset(b)
    ensures a == b
  {
    SameMembers(a, b);
    if a != [] {
      SameLeast(le, a, b);
      HeadAndTail(a);
      HeadAndTail(b);
      hide TotalOrder;
      SortedIsUnique(le, a[1..], b[1..]);
      assert a == [a[0]] + a[1..] && b == [b[0]] + b[1..];
    }
  }

  /** Two sorted arrangements start with the least element. */
  lemma SameLeast<T(!new)>(le: (T, T) -> bool, a: seq<T>, b: seq<T>)
    requires TotalOrder(le) && Sorted(le, a) && Sorted(le, b)
    requires a != [] && b != [] && forall x :: x in a <==> x in b
    ensures a[0] == b[0]
  {
    assert a[0] in b && b[0] in a;
    assert le(a[0], b[0]) && le(b[0], a[0]);
  }

  /** Sorting forgets the order of its input. */
  lemma SortIgnoresOrder<T(!new)>(le: (T, T) -> bool, a: seq<T>, b: seq<T>)
    requires TotalOrder(le) && multiset(a) == multiset(b)
    ensures Sort(le, a) == Sort(le, b)
  {
    SortPermutes(le, a);
    SortPermutes(le, b);
    SortSorts(le, a);
    SortSorts(le, b);
    SortedIsUnique(le, Sort(le, a), Sort(le, b));
  }

  predicate Distinct<T(==)>(s: seq<T>) {
    forall i, j :: 0 <= i < j < |s| ==> s[i] != s[j]
  }

  lemma DistinctSnoc<T>(s: seq<T>, x: T)
    ensures Distinct(s + [x]) <==> Distinct(s) && x !in s
  {
    var t := s + [x];
    if Distinct(t) {
      forall i, j | 0 <= i < j < |s| ensures s[i] != s[j] { assert t[i] != t[j]; }
      forall i | 0 <= i < |s| ensures s[i] != x { assert t[i] != t[|s|]; }
    }
  }

  lemma DistinctCounts<T>(s: seq<T>, i: nat)
    requires Distinct(s) && i < |s|
    ensures multiset(s)[s[i]] == 1
  {
    var left, right := s[..i], s[i + 1..];
    assert s[i] !in left && s[i] !in right;
    assert s == left + [s[i]] + right;
    assert multiset(s) == multiset(left) + multiset{s[i]} + multiset(right);
  }

  lemma RepeatCounts<T>(s: seq<T>, i: nat, j: nat)
    requires i < j < |s| && s[i] == s[j]
    ensures multiset(s)[s[i]] >= 2
  {
    var left, right := s[..j], s[j..];
    assert s == left + right;
    assert s[i] == left[i] && s[i] == right[0];
    assert multiset(s) == multiset(left) + multiset(right);
  }

  /** Distinctness is a matter of multiplicities, so it survives reordering. */
  lemma DistinctIsMultiplicity<T>(s: seq<T>)
    ensures Distinct(s) <==> forall x :: x in s ==> multiset(s)[x] == 1
  {
    if Distinct(s) {
      forall x | x in s ensures multiset(s)[x] == 1 {
        var i :| 0 <= i < |s| && s[i] == x;
        DistinctCounts(s, i);
      }
    } else {
      var i, j :| 0 <= i < j < |s| && s[i] == s[j];
      RepeatCounts(s, i, j);
    }
  }

  lemma DistinctSort<T(!new)>(le: (T, T) -> bool, s: seq<T>)
    requires Distinct(s)
    ensures Distinct(Sort(le, s))
  {
    SortPermutes(le, s);
    DistinctIsMultiplicity(s);
    forall x | x in Sort(le, s) ensures multiset(Sort(le, s))[x] == 1 {
      assert x in multiset(Sort(le, s));
      assert x in multiset(s);
    }
    DistinctIsMultiplicity(Sort(le, s));
  }

  /** Two duplicate-free sequences over the same elements are permutations of each other. */
  lemma DistinctSameSet<T>(a: seq<T>, b: seq<T>)
    requires Distinct(a) && Distinct(b)
    requires forall x :: x in a <==> x in b
    ensures multiset(a) == multiset(b)
  {
    DistinctIsMultiplicity(a);
    DistinctIsMultiplicity(b);
    forall x ensures multiset(a)[x] == multiset(b)[x] {
      if x in a {
        assert multiset(a)[x] == 1 && multiset(b)[x] == 1;
      } else {
        assert x !in multiset(a) && x !in multiset(b);
      }
    }
  }

  /** Take one occurrence of an element out of a sequence. */
  lemma TakeOut<T>(s: seq<T>, x: T) returns (left: seq<T>, right: seq<T>)
    requires x in s
    ensures s == left + [x] + right
    ensures multiset(left + right) == multiset(s) - multiset{x}
    ensures |left + right| == |s| - 1
  {
    var i :| 0 <= i < |s| && s[i] == x;
    left, right := s[..i], s[i + 1..];
    assert s == left + [x] + right;
  }

  lemma HeadAndTail<T>(s: seq<T>)
    requires s != []
    ensures multiset(s[1..]) == multiset(s) - multiset{s[0]}
  {
    assert s == [s[0]] + s[1..];
  }

  lemma SameMembers<T>(a: seq<T>, b: seq<T>)
    requires multiset(a) == multiset(b)
    ensures forall x :: x in a <==> x in b
    ensures |a| == |b|
  {
    forall x ensures x in a <==> x in b {
      assert x in a <==> x in multiset(a);
      assert x in b <==> x in multiset(b);
    }
    assert |a| == |multiset(a)| == |multiset(b)| == |b|;
  }

  lemma SameDistinct<T>(a: seq<T>, b: seq<T>)
    requires multiset(a) == multiset(b)
    ensures Distinct(a) <==> Distinct(b)
  {
    SameMembers(a, b);
    DistinctIsMultiplicity(a);
    DistinctIsMultiplicity(b);
  }

  /** Membership is unchanged by sorting. */
  lemma SortMembers<T>(le: (T, T) -> bool, s: seq<T>, x: T)
    ensures x in Sort(le, s) <==> x in s
  {
    SortPermutes(le, s);
    assert x in Sort(le, s) <==> x in multiset(Sort(le, s));
  }

  // ---------------------------------------------------------------- string keys

  /** Lexicographic order on strings, the order Python compares text keys by. */
  predicate LexLe(a: string, b: string) {
    a == [] || (b != [] && (a[0] < b[0] || (a[0] == b[0] && LexLe(a[1..], b[1..]))))
  }

  /** The first difference decides, and a prefix comes first. */
  lemma {:induction false} LexDecides(common: string, a: string, b: string)
    ensures a == [] ==> LexLe(common + a, common + b)
    ensures a != [] && b != [] && a[0] < b[0] ==> LexLe(common + a, common + b)
    ensures a != [] && b != [] && a[0] > b[0] ==> !LexLe(common + a, common + b)
  {
    if common == [] {
      assert [] + a == a && [] + b == b;
    } else {
      LexDecides(common[1..], a, b);
      assert (common + a)[1..] == common[1..] + a && (common + b)[1..] == common[1..] + b;
    }
  }

  lemma {:induction false} LexTotal(a: string, b: string)
    ensures LexLe(a, b) || LexLe(b, a)
  {
    if a != [] && b != [] && a[0] == b[0] {
      LexTotal(a[1..], b[1..]);
    }
  }

  lemma {:induction false} LexAntisymmetric(a: string, b: string)
    requires LexLe(a, b) && LexLe(b, a)
    ensures a == b
  {
    if a != [] && b != [] {
      LexAntisymmetric(a[1..], b[1..]);
      assert a == [a[0]] + a[1..] && b == [b[0]] + b[1..];
    }
  }

  lemma {:induction false} LexTransitive(a: string, b: string, c: string)
    requires LexLe(a, b) && LexLe(b, c)
    ensures LexLe(a, c)
  {
    if a != [] && a[0] == b[0] && b[0] == c[0] {
      LexTransitive(a[1..], b[1..], c[1..]);
    }
  }

  function IntLe(): (int, int) -> bool { (a, b) => a <= b }
}
