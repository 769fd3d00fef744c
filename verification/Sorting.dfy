/** `std::sort` on strings, as far as its callers can tell: a sorted permutation, and only one. */
module Sorting {

  /** The order of `std::string`. */
  predicate Le(a: string, b: string) {
    a == "" || (b != "" && (a[0] < b[0] || (a[0] == b[0] && Le(a[1..], b[1..]))))
  }

  /** It is decided by the first character in which the two differ; a prefix comes first. */
  lemma {:induction false} LeComparesFirstDifference(common: string, a: string, b: string)
    ensures a == "" ==> Le(common + a, common + b)
    ensures a != "" && b == "" ==> !Le(common + a, common + b)
    ensures a != "" && b != "" && a[0] < b[0] ==> Le(common + a, common + b)
    ensures a != "" && b != "" && a[0] > b[0] ==> !Le(common + a, common + b)
  {
    if common == "" {
      assert common + a == a && common + b == b;
    } else {
      LeComparesFirstDifference(common[1..], a, b);
      assert (common + a)[1..] == common[1..] + a && (common + b)[1..] == common[1..] + b;
    }
  }

  lemma {:induction false} LeTotal(a: string, b: string)
    ensures Le(a, b) || Le(b, a)
  {
    if a != "" && b != "" && a[0] == b[0] { LeTotal(a[1..], b[1..]); }
  }

  lemma {:induction false} LeAntisymmetric(a: string, b: string)
    requires Le(a, b) && Le(b, a)
    ensures a == b
  {
    if a != "" && b != "" {
      LeAntisymmetric(a[1..], b[1..]);
      assert a == [a[0]] + a[1..] && b == [b[0]] + b[1..];
    }
  }

  lemma {:induction false} LeTransitive(a: string, b: string, c: string)
    requires Le(a, b) && Le(b, c)
    ensures Le(a, c)
  {
    if a != "" && b != "" && c != "" && a[0] == b[0] == c[0] { LeTransitive(a[1..], b[1..], c[1..]); }
  }

  ghost predicate IsSorted(s: seq<string>) {
    forall i, j | 0 <= i < j < |s| :: Le(s[i], s[j])
  }

  function Insert(s: seq<string>, x: string): (r: seq<string>)
    requires IsSorted(s)
    ensures IsSorted(r) && multiset(r) == multiset(s) + multiset{x}
  {
    if s == [] then [x]
    else
      LeTotal(x, s[0]);
      assert s == [s[0]] + s[1..];
      if Le(x, s[0]) then
        assert forall i | 0 <= i < |s| :: Le(x, s[i]) by {
          forall i | 0 <= i < |s| ensures Le(x, s[i]) {
            if i > 0 { LeTransitive(x, s[0], s[i]); }
          }
        }
        [x] + s
      else
        var r := Insert(s[1..], x);
        assert forall y | y in r :: Le(s[0], y) by {
          forall y | y in r ensures Le(s[0], y) {
            assert y in multiset(r);
            assert y == x || y in s[1..];
          }
        }
        [s[0]] + r
  }

  function Sort(s: seq<string>): (r: seq<string>)
    ensures IsSorted(r) && multiset(r) == multiset(s)
  {
    if s == [] then []
    else
      assert s == s[..|s| - 1] + [s[|s| - 1]];
      Insert(Sort(s[..|s| - 1]), s[|s| - 1])
  }

  /** Sorted sequences with the same elements are the same. */
  lemma {:induction false} SortedIsUnique(a: seq<string>, b: seq<string>)
    requires IsSorted(a) && IsSorted(b) && multiset(a) == multiset(b)
    ensures a == b
  {
    hide Le;
    if a == [] {
      assert |multiset(b)| == |b|;
    } else {
      assert a[0] in multiset(b) && b != [];
      assert b[0] in multiset(a);
      FirstIsLeast(a, b[0]);
      FirstIsLeast(b, a[0]);
      LeAntisymmetric(a[0], b[0]);
      assert a == [a[0]] + a[1..] && b == [b[0]] + b[1..];
      assert multiset(a[1..]) == multiset(a) - multiset{a[0]};
      SortedIsUnique(a[1..], b[1..]);
    }
  }

  lemma FirstIsLeast(s: seq<string>, x: string)
    requires IsSorted(s) && x in s
    ensures s != [] && Le(s[0], x)
  {
    if s[0] == x { LeTotal(x, x); }
  }

  ghost predicate Distinct<T(!new)>(s: seq<T>) {
    forall i, j | 0 <= i < j < |s| :: s[i] != s[j]
  }

  lemma {:induction false} DistinctCount<T(!new)>(s: seq<T>, x: T)
    requires Distinct(s)
    ensures multiset(s)[x] == if x in s then 1 else 0
  {
    if s == [] {
    } else {
      assert s == [s[0]] + s[1..];
      DistinctCount(s[1..], x);
      if x == s[0] {
        assert x !in s[1..];
      }
    }
  }

  lemma {:induction false} CountedOnceIsDistinct<T(!new)>(s: seq<T>)
    requires forall x | x in s :: multiset(s)[x] == 1
    ensures Distinct(s)
  {
    if s == [] {
    } else {
      assert s == [s[0]] + s[1..];
      forall x | x in s[1..] ensures multiset(s[1..])[x] == 1 {
        assert x in s && multiset(s)[x] == multiset([s[0]])[x] + multiset(s[1..])[x];
      }
      CountedOnceIsDistinct(s[1..]);
      assert multiset(s)[s[0]] == 1 + multiset(s[1..])[s[0]];
      assert s[0] !in s[1..];
    }
  }

  /** Listing the elements of `b` once each, in any order, and sorting gives what sorting `b`
      gives exactly if `b` has no duplicates. */
  lemma SortOfListing(a: seq<string>, b: seq<string>)
    requires Distinct(a) && forall x :: x in a <==> x in b
    ensures Sort(a) == Sort(b) <==> Distinct(b)
  {
    forall x ensures multiset(a)[x] == if x in a then 1 else 0 {
      DistinctCount(a, x);
    }
    if Distinct(b) {
      forall x ensures multiset(b)[x] == if x in b then 1 else 0 {
        DistinctCount(b, x);
      }
      assert multiset(a) == multiset(b);
      SortedIsUnique(Sort(a), Sort(b));
    }
    if Sort(a) == Sort(b) {
      assert multiset(a) == multiset(Sort(a)) == multiset(b);
      forall x | x in b ensures multiset(b)[x] == 1 {
        assert multiset(a)[x] == 1;
      }
      CountedOnceIsDistinct(b);
    }
  }
}
