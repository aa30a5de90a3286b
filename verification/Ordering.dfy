/** Bytewise order of strings, and sorting by a string key. */
module Ordering {

  predicate Less(a: string, b: string) {
    if b == "" then false
    else if a == "" then true
    else a[0] < b[0] || (a[0] == b[0] && Less(a[1..], b[1..]))
  }

  lemma {:induction false} LessIrreflexive(a: string)
    ensures !Less(a, a)
  {
    if a != "" {
      LessIrreflexive(a[1..]);
    }
  }

  lemma {:induction false} LessTransitive(a: string, b: string, c: string)
    requires Less(a, b) && Less(b, c)
    ensures Less(a, c)
  {
    if a != "" && a[0] == b[0] && b[0] == c[0] {
      LessTransitive(a[1..], b[1..], c[1..]);
    }
  }

  lemma {:induction false} LessTotal(a: string, b: string)
    ensures Less(a, b) || a == b || Less(b, a)
  {
    if a != "" && b != "" && a[0] == b[0] {
      LessTotal(a[1..], b[1..]);
      if a[1..] == b[1..] {
        assert a == [a[0]] + a[1..] && b == [b[0]] + b[1..];
      }
    }
  }

  lemma {:induction false} NotLessTransitive(x: string, y: string, z: string)
    requires !Less(x, y) && !Less(y, z)
    ensures !Less(x, z)
    ensures x == z ==> x == y && y == z
  {
    LessTotal(x, y);
    LessTotal(y, z);
    if y != x && z != y {
      LessTransitive(z, y, x);
      if Less(x, z) {
        LessTransitive(x, z, y);
        LessTransitive(x, y, x);
        LessIrreflexive(x);
      }
    }
    LessIrreflexive(x);
  }

  predicate StrictlySorted(s: seq<string>) {
    forall i, j :: 0 <= i < j < |s| ==> Less(s[i], s[j])
  }

  // Neighbours in order put the whole sequence in order.
  lemma {:induction false} NeighboursSort(s: seq<string>)
    requires forall i :: 1 <= i < |s| ==> Less(s[i - 1], s[i])
    ensures StrictlySorted(s)
  {
    if |s| > 1 {
      var init := s[..|s| - 1];
      forall i | 1 <= i < |init|
        ensures Less(init[i - 1], init[i])
      {
        assert Less(s[i - 1], s[i]);
      }
      NeighboursSort(init);
      forall i, j | 0 <= i < j < |s|
        ensures Less(s[i], s[j])
      {
        if j < |s| - 1 {
          assert init[i] == s[i] && init[j] == s[j];
        } else if i < |s| - 2 {
          assert init[i] == s[i] && init[|s| - 2] == s[|s| - 2];
          LessTransitive(s[i], s[|s| - 2], s[|s| - 1]);
        }
      }
    }
  }

  // A set has only one strictly sorted listing.
  lemma {:induction false} SortedListingIsUnique(s: seq<string>, t: seq<string>)
    requires StrictlySorted(s) && StrictlySorted(t)
    requires forall x :: x in s <==> x in t
    ensures s == t
  {
    EmptyTogether(s, t);
    if s != [] {
      FirstIsLeast(s, t);
      FirstIsLeast(t, s);
      assert s[0] == t[0] by {
        if s[0] != t[0] {
          LessTransitive(s[0], t[0], s[0]);
          LessIrreflexive(s[0]);
        }
      }
      forall x
        ensures x in s[1..] <==> x in t[1..]
      {
        TailMembers(s, x);
        TailMembers(t, x);
      }
      SortedListingIsUnique(s[1..], t[1..]);
      assert s == [s[0]] + s[1..] && t == [t[0]] + t[1..];
    }
  }

  lemma {:induction false} EmptyTogether(s: seq<string>, t: seq<string>)
    requires forall x :: x in s <==> x in t
    ensures s == [] <==> t == []
  {
    assert s != [] ==> s[0] in t;
    assert t != [] ==> t[0] in s;
  }

  lemma {:induction false} FirstIsLeast(s: seq<string>, t: seq<string>)
    requires StrictlySorted(s) && s != [] && t != []
    requires forall x :: x in t ==> x in s
    ensures s[0] == t[0] || Less(s[0], t[0])
  {
    assert t[0] in s;
  }

  lemma {:induction false} TailMembers(s: seq<string>, x: string)
    requires StrictlySorted(s) && s != []
    ensures x in s[1..] <==> x in s && x != s[0]
  {
    LessIrreflexive(s[0]);
    if x in s && x != s[0] {
      var i :| 0 <= i < |s| && s[i] == x;
      assert s[1..][i - 1] == x;
    }
  }

  // ------------------------------------------------------------ stable sorting

  ghost predicate StrictWeakOrder<T(!new)>(less: (T, T) -> bool) {
    && (forall a, b :: less(a, b) ==> !less(b, a))
    && (forall a, b, c :: !less(a, b) && !less(b, c) ==> !less(a, c))
  }

  function InsertBy<T>(less: (T, T) -> bool, x: T, s: seq<T>): seq<T> {
    if s == [] then [x]
    else if less(x, s[0]) then [x] + s
    else [s[0]] + InsertBy(less, x, s[1..])
  }

  // Equal elements keep their order.
  function SortBy<T>(less: (T, T) -> bool, s: seq<T>): seq<T> {
    if s == [] then []
    else InsertBy(less, s[|s| - 1], SortBy(less, s[..|s| - 1]))
  }

  ghost predicate SortedBy<T>(less: (T, T) -> bool, s: seq<T>) {
    forall i, j :: 0 <= i < j < |s| ==> !less(s[j], s[i])
  }

  lemma {:induction false} InsertKeepsElements<T>(less: (T, T) -> bool, x: T, s: seq<T>)
    ensures multiset(InsertBy(less, x, s)) == multiset(s) + multiset{x}
  {
    if s != [] {
      if less(x, s[0]) {
        assert multiset([x] + s) == multiset(s) + multiset{x};
      } else {
        InsertKeepsElements(less, x, s[1..]);
        assert s == [s[0]] + s[1..];
      }
    }
  }

  lemma {:induction false} InsertKeepsSorted<T(!new)>(less: (T, T) -> bool, x: T, s: seq<T>)
    requires StrictWeakOrder(less) && SortedBy(less, s)
    ensures SortedBy(less, InsertBy(less, x, s))
  {
    var r := InsertBy(less, x, s);
    if s != [] && !less(x, s[0]) {
      InsertKeepsSorted(less, x, s[1..]);
      InsertKeepsElements(less, x, s[1..]);
      forall j | 1 <= j < |r|
        ensures !less(r[j], r[0])
      {
        assert r[1..][j - 1] in multiset(r[1..]);
        assert r[j] == x || r[j] in s[1..];
      }
      forall i, j | 0 <= i < j < |r|
        ensures !less(r[j], r[i])
      {
        if i > 0 {
          assert r[i] == r[1..][i - 1] && r[j] == r[1..][j - 1];
        }
      }
    }
  }

  lemma {:induction false} SortByIsSorted<T(!new)>(less: (T, T) -> bool, s: seq<T>)
    requires StrictWeakOrder(less)
    ensures SortedBy(less, SortBy(less, s))
  {
    if s != [] {
      SortByIsSorted(less, s[..|s| - 1]);
      InsertKeepsSorted(less, s[|s| - 1], SortBy(less, s[..|s| - 1]));
    }
  }

  lemma {:induction false} SortByKeepsElements<T>(less: (T, T) -> bool, s: seq<T>)
    ensures multiset(SortBy(less, s)) == multiset(s)
  {
    if s != [] {
      SortByKeepsElements(less, s[..|s| - 1]);
      InsertKeepsElements(less, s[|s| - 1], SortBy(less, s[..|s| - 1]));
      assert s == s[..|s| - 1] + [s[|s| - 1]];
    }
  }

  lemma {:induction false} SameMultisetFacts<T>(s: seq<T>, t: seq<T>)
    requires multiset(s) == multiset(t)
    ensures |s| == |t|
    ensures forall x :: x in s <==> x in t
    ensures Distinct(s) ==> Distinct(t)
  {
    assert |s| == |multiset(s)| && |t| == |multiset(t)|;
    forall x
      ensures x in s <==> x in t
    {
      assert x in s <==> x in multiset(s);
      assert x in t <==> x in multiset(t);
    }
    if Distinct(s) {
      DistinctIsOnce(s);
      OnceIsDistinct(t);
    }
  }

  ghost predicate Distinct<T>(s: seq<T>) {
    forall i, j :: 0 <= i < j < |s| ==> s[i] != s[j]
  }

  lemma {:induction false} DistinctIsOnce<T>(s: seq<T>)
    requires Distinct(s)
    ensures forall x :: multiset(s)[x] <= 1
  {
    if s != [] {
      var init := s[..|s| - 1];
      DistinctIsOnce(init);
      assert s == init + [s[|s| - 1]];
      assert s[|s| - 1] !in init;
    }
  }

  lemma {:induction false} OnceIsDistinct<T>(s: seq<T>)
    requires forall x :: multiset(s)[x] <= 1
    ensures Distinct(s)
  {
    if s != [] {
      var init := s[..|s| - 1];
      var last := s[|s| - 1];
      assert s == init + [last];
      assert multiset(s) == multiset(init) + multiset{last};
      assert multiset(s)[last] == multiset(init)[last] + 1;
      assert last !in init;
      forall x
        ensures multiset(init)[x] <= 1
      {
        assert multiset(s)[x] <= 1;
      }
      OnceIsDistinct(init);
    }
  }
}
