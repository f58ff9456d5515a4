/**
 * Ordering used by the serialisers: Java's `String.compareTo` (lexicographic on
 * characters, a proper prefix first), the stable sort of `Stream.sorted`, and
 * the enumeration of a hash set in an unspecified order.
 */
module Ordering {

  /** `a.compareTo(b) <= 0`. */
  predicate LessEq(a: string, b: string)
  {
    if |a| == 0 then true
    else if |b| == 0 then false
    else if a[0] != b[0] then a[0] < b[0]
    else LessEq(a[1..], b[1..])
  }

  lemma {:induction false} LessEqTotal(a: string, b: string)
    ensures LessEq(a, b) || LessEq(b, a)
  {
    if |a| > 0 && |b| > 0 && a[0] == b[0] {
      LessEqTotal(a[1..], b[1..]);
    }
  }

  lemma {:induction false} LessEqTransitive(a: string, b: string, c: string)
    requires LessEq(a, b) && LessEq(b, c)
    ensures LessEq(a, c)
  {
    if |a| > 0 && |b| > 0 && |c| > 0 && a[0] == b[0] == c[0] {
      LessEqTransitive(a[1..], b[1..], c[1..]);
    }
  }

  /** Every element's key is at most the next one's. */
  ghost predicate SortedBy<T>(s: seq<T>, key: T -> string)
  {
    forall i, j :: 0 <= i < j < |s| ==> LessEq(key(s[i]), key(s[j]))
  }

  ghost predicate AdjacentSortedBy<T>(s: seq<T>, key: T -> string)
  {
    forall i :: 0 < i < |s| ==> LessEq(key(s[i - 1]), key(s[i]))
  }

  lemma {:induction false} AdjacentSortedIsSorted<T>(s: seq<T>, key: T -> string)
    requires AdjacentSortedBy(s, key)
    ensures SortedBy(s, key)
  {
    if |s| > 1 {
      AdjacentSortedIsSorted(s[1..], key);
      forall j | 0 < j < |s|
        ensures LessEq(key(s[0]), key(s[j]))
      {
        if j > 1 {
          assert LessEq(key(s[1..][0]), key(s[1..][j - 1]));
          LessEqTransitive(key(s[0]), key(s[1]), key(s[j]));
        }
      }
      forall i, j | 0 < i < j < |s|
        ensures LessEq(key(s[i]), key(s[j]))
      {
        assert s[i] == s[1..][i - 1] && s[j] == s[1..][j - 1];
      }
    }
  }

  /** No element occurs twice. */
  ghost predicate Distinct<T>(s: seq<T>)
  {
    forall i, j :: 0 <= i < j < |s| ==> s[i] != s[j]
  }

  /** Inserts `x` after the leading elements whose keys are at most its own, so ties keep their order. */
  function Insert<T>(x: T, s: seq<T>, key: T -> string): (r: seq<T>)
    requires AdjacentSortedBy(s, key)
    ensures AdjacentSortedBy(r, key)
    ensures multiset(r) == multiset(s) + multiset{x}
    ensures |r| == |s| + 1
    ensures r[0] == x || (|s| > 0 && r[0] == s[0])
    ensures Distinct(s) && x !in s ==> Distinct(r)
  {
    if |s| == 0 then [x]
    else if LessEq(key(s[0]), key(x)) then
      var rest := Insert(x, s[1..], key);
      InsertAfterHead(x, s, key, rest);
      [s[0]] + rest
    else
      LessEqTotal(key(x), key(s[0]));
      ConsSorted(x, s, key);
      [x] + s
  }

  /** `x` goes behind every element whose key is at most its own. */
  lemma {:induction false} InsertBehindSmaller<T>(x: T, s: seq<T>, key: T -> string)
    requires AdjacentSortedBy(s, key)
    requires forall i :: 0 <= i < |s| ==> LessEq(key(s[i]), key(x))
    ensures Insert(x, s, key) == s + [x]
  {
    if |s| > 0 {
      assert AdjacentSortedBy(s[1..], key) by {
        forall i | 0 < i < |s[1..]| ensures LessEq(key(s[1..][i - 1]), key(s[1..][i])) {
          assert s[1..][i - 1] == s[i] && s[1..][i] == s[i + 1];
        }
      }
      assert forall i :: 0 <= i < |s[1..]| ==> s[1..][i] == s[i + 1];
      InsertBehindSmaller(x, s[1..], key);
      assert s == [s[0]] + s[1..];
    }
  }

  /** Putting `x` in front of `s` keeps it sorted when `x`'s key is at most that of `s`'s head, and distinct when `x` is new. */
  lemma ConsSorted<T>(x: T, s: seq<T>, key: T -> string)
    requires AdjacentSortedBy(s, key) && |s| > 0 && LessEq(key(x), key(s[0]))
    ensures AdjacentSortedBy([x] + s, key)
    ensures multiset([x] + s) == multiset(s) + multiset{x}
    ensures Distinct(s) && x !in s ==> Distinct([x] + s)
  {
    var r := [x] + s;
    assert forall i :: 0 < i < |r| ==> r[i] == s[i - 1];
  }

  /** The recursive case of `Insert`: the head of `s` stays in front of the insertion into its tail. */
  lemma {:induction false} InsertAfterHead<T>(x: T, s: seq<T>, key: T -> string, rest: seq<T>)
    requires |s| > 0 && AdjacentSortedBy(s, key) && LessEq(key(s[0]), key(x))
    requires AdjacentSortedBy(rest, key) && |rest| == |s|
    requires multiset(rest) == multiset(s[1..]) + multiset{x}
    requires rest[0] == x || (|s| > 1 && rest[0] == s[1])
    requires Distinct(s[1..]) && x !in s[1..] ==> Distinct(rest)
    ensures AdjacentSortedBy([s[0]] + rest, key)
    ensures multiset([s[0]] + rest) == multiset(s) + multiset{x}
    ensures Distinct(s) && x !in s ==> Distinct([s[0]] + rest)
  {
    var r := [s[0]] + rest;
    assert s == [s[0]] + s[1..];
    assert forall i :: 0 < i < |r| ==> r[i] == rest[i - 1];
    assert LessEq(key(r[0]), key(r[1]));
    if Distinct(s) && x !in s {
      assert Distinct(s[1..]) by {
        forall i, j | 0 <= i < j < |s[1..]| ensures s[1..][i] != s[1..][j] {
          assert s[1..][i] == s[i + 1] && s[1..][j] == s[j + 1];
        }
      }
      assert s[0] !in multiset(s[1..]);
      assert s[0] !in multiset(rest);
      forall i, j | 0 <= i < j < |r| ensures r[i] != r[j] {
        if i == 0 {
          assert r[j] in multiset(rest);
        }
      }
    }
  }

  /** `Stream.sorted(Comparator.comparing(key))`: a sorted permutation of `s`. */
  function SortBy<T>(s: seq<T>, key: T -> string): (r: seq<T>)
    ensures AdjacentSortedBy(r, key)
    ensures multiset(r) == multiset(s)
    ensures |r| == |s|
    ensures Distinct(s) ==> Distinct(r)
  {
    if |s| == 0 then []
    else
      assert s == s[..|s| - 1] + [s[|s| - 1]];
      assert Distinct(s) ==> s[|s| - 1] !in multiset(SortBy(s[..|s| - 1], key));
      Insert(s[|s| - 1], SortBy(s[..|s| - 1], key), key)
  }

  /** The sort is stable: when every key equals `k`, the input order is kept. */
  lemma {:induction false} SortByKeepsTies<T>(s: seq<T>, key: T -> string, k: string)
    requires forall i :: 0 <= i < |s| ==> key(s[i]) == k
    ensures SortBy(s, key) == s
  {
    if |s| > 0 {
      var init := s[..|s| - 1];
      var last := s[|s| - 1];
      assert s == init + [last];
      assert forall i :: 0 <= i < |init| ==> init[i] == s[i];
      SortByKeepsTies(init, key, k);
      assert SortBy(s, key) == Insert(last, init, key);
      LessEqTotal(k, k);
      InsertBehindSmaller(last, init, key);
    }
  }

  /** Selects the elements whose key is `k`. */
  function HasKey<T>(key: T -> string, k: string): T -> bool
  {
    x => key(x) == k
  }

  /** Inserting `x` puts it behind every element with its own key and leaves the others' order alone. */
  lemma {:induction false} InsertKeepsTies<T>(x: T, s: seq<T>, key: T -> string, k: string)
    requires AdjacentSortedBy(s, key)
    ensures Filter(Insert(x, s, key), HasKey(key, k)) == Filter(s, HasKey(key, k)) + (if key(x) == k then [x] else [])
  {
    var p := HasKey(key, k);
    var last: seq<T> := if key(x) == k then [x] else [];
    assert p(x) <==> key(x) == k;
    if |s| == 0 {
      assert Insert(x, s, key) == [x] + [];
      FilterCons(x, [], p);
    } else if LessEq(key(s[0]), key(x)) {
      assert s == [s[0]] + s[1..];
      assert AdjacentSortedBy(s[1..], key) by {
        forall i | 0 < i < |s[1..]| ensures LessEq(key(s[1..][i - 1]), key(s[1..][i])) {
          assert s[1..][i - 1] == s[i] && s[1..][i] == s[i + 1];
        }
      }
      var rest := Insert(x, s[1..], key);
      assert Insert(x, s, key) == [s[0]] + rest;
      InsertKeepsTies(x, s[1..], key, k);
      FilterConsBoth(s[0], s[1..], rest, p, last);
    } else {
      assert Insert(x, s, key) == [x] + s;
      FilterCons(x, s, p);
      if key(x) == k {
        NoTieAhead(x, s, key);
        assert Filter(s, p) == [];
      }
    }
  }

  /** Putting the same element in front of two sequences keeps a relation between their filtered forms. */
  lemma FilterConsBoth<T>(y: T, t: seq<T>, u: seq<T>, p: T -> bool, last: seq<T>)
    requires Filter(u, p) == Filter(t, p) + last
    ensures Filter([y] + u, p) == Filter([y] + t, p) + last
  {
    FilterCons(y, u, p);
    FilterCons(y, t, p);
    ConcatAssociative(if p(y) then [y] else [], Filter(t, p), last);
  }

  lemma ConcatAssociative<T>(a: seq<T>, b: seq<T>, c: seq<T>)
    ensures a + (b + c) == (a + b) + c
  {
  }

  /** Filtering a sequence with one more element in front. */
  lemma FilterCons<T>(y: T, t: seq<T>, p: T -> bool)
    ensures Filter([y] + t, p) == (if p(y) then [y] else []) + Filter(t, p)
  {
    assert ([y] + t)[0] == y;
    assert ([y] + t)[1..] == t;
  }

  /** When `x`'s key is below the head's of a sorted `s`, no element of `s` has `x`'s key. */
  lemma NoTieAhead<T>(x: T, s: seq<T>, key: T -> string)
    requires AdjacentSortedBy(s, key) && |s| > 0 && !LessEq(key(s[0]), key(x))
    ensures Filter(s, HasKey(key, key(x))) == []
  {
    AdjacentSortedIsSorted(s, key);
    LessEqTotal(key(x), key(x));
    forall j | 0 <= j < |s| ensures key(s[j]) != key(x) {
      if j > 0 {
        assert LessEq(key(s[0]), key(s[j]));
      }
    }
    FilterCounts(s, HasKey(key, key(x)));
  }

  /** Filtering a sequence with one more element at the end. */
  lemma {:induction false} FilterSnoc<T>(s: seq<T>, x: T, p: T -> bool)
    ensures Filter(s + [x], p) == Filter(s, p) + (if p(x) then [x] else [])
  {
    if |s| == 0 {
      assert s + [x] == [x];
      assert [x][1..] == [];
    } else {
      assert (s + [x])[0] == s[0];
      assert (s + [x])[1..] == s[1..] + [x];
      FilterSnoc(s[1..], x, p);
    }
  }

  /** The sort is stable: the elements with any one key come out in their input order. */
  lemma {:induction false} SortByIsStable<T>(s: seq<T>, key: T -> string, k: string)
    ensures Filter(SortBy(s, key), HasKey(key, k)) == Filter(s, HasKey(key, k))
  {
    if |s| > 0 {
      var init := s[..|s| - 1];
      var last := s[|s| - 1];
      assert s == init + [last];
      SortByIsStable(init, key, k);
      assert SortBy(s, key) == Insert(last, SortBy(init, key), key);
      InsertKeepsTies(last, SortBy(init, key), key, k);
      FilterSnoc(init, last, HasKey(key, k));
    }
  }

  /** The sorted sequence is ordered pairwise and holds the same elements. */
  lemma SortBySpec<T>(s: seq<T>, key: T -> string)
    ensures SortedBy(SortBy(s, key), key)
    ensures forall x :: x in SortBy(s, key) <==> x in s
  {
    AdjacentSortedIsSorted(SortBy(s, key), key);
    var r := SortBy(s, key);
    forall x
      ensures x in r <==> x in s
    {
      assert x in r <==> x in multiset(r);
      assert x in s <==> x in multiset(s);
    }
  }

  /**
   * The entries of a hash map in its iteration order: every element of `s`
   * exactly once, in an order the source leaves unspecified.
   */
  method Enumerate<T>(s: set<T>) returns (r: seq<T>)
    ensures Distinct(r)
    ensures forall x :: x in r <==> x in s
    ensures |r| == |s|
  {
    r := [];
    var rest := s;
    while rest != {}
      invariant rest <= s
      invariant Distinct(r)
      invariant forall x :: x in r <==> x in s && x !in rest
      invariant |r| + |rest| == |s|
      decreases |rest|
    {
      var x :| x in rest;
      r := r + [x];
      rest := rest - {x};
    }
  }

  /** The elements of `s` that satisfy `p`, in their order. */
  function Filter<T>(s: seq<T>, p: T -> bool): (r: seq<T>)
    ensures |r| <= |s|
    ensures forall i :: 0 <= i < |r| ==> r[i] in s && p(r[i])
    ensures forall i :: 0 <= i < |s| && p(s[i]) ==> s[i] in r
    ensures Distinct(s) ==> Distinct(r)
  {
    if |s| == 0 then []
    else if p(s[0]) then [s[0]] + Filter(s[1..], p)
    else Filter(s[1..], p)
  }

  /** Filtering keeps the order and drops no duplicate-free property. */
  lemma {:induction false} FilterKeepsOrder<T>(s: seq<T>, p: T -> bool, key: T -> string)
    requires SortedBy(s, key) && Distinct(s)
    ensures SortedBy(Filter(s, p), key) && Distinct(Filter(s, p))
  {
    if |s| > 0 {
      var tail := s[1..];
      HeadBeforeTail(s, key);
      FilterKeepsOrder(tail, p, key);
      if p(s[0]) {
        var ft := Filter(tail, p);
        assert forall y :: y in ft ==> y in tail;
        SortedCons(s[0], ft, key);
      }
    }
  }

  /** The tail of a sorted, distinct sequence is sorted and distinct, and every element of it comes after the head. */
  lemma HeadBeforeTail<T>(s: seq<T>, key: T -> string)
    requires |s| > 0 && SortedBy(s, key) && Distinct(s)
    ensures SortedBy(s[1..], key) && Distinct(s[1..])
    ensures forall y :: y in s[1..] ==> LessEq(key(s[0]), key(y)) && y != s[0]
  {
    var tail := s[1..];
    assert forall i :: 0 <= i < |tail| ==> tail[i] == s[i + 1];
  }

  /** Putting in front an element that comes before, and differs from, every element keeps a sequence sorted and distinct. */
  lemma SortedCons<T>(x: T, t: seq<T>, key: T -> string)
    requires SortedBy(t, key) && Distinct(t)
    requires forall y :: y in t ==> LessEq(key(x), key(y)) && y != x
    ensures SortedBy([x] + t, key) && Distinct([x] + t)
  {
    var r := [x] + t;
    assert forall i :: 0 < i < |r| ==> r[i] == t[i - 1];
  }

  /** Position `i` is the one and only position of `s` whose element satisfies `p`. */
  ghost predicate OnlyAt<T>(s: seq<T>, p: T -> bool, i: int)
  {
    0 <= i < |s| && p(s[i]) && forall j :: 0 <= j < |s| && j != i ==> !p(s[j])
  }

  /**
   * What the size of a filtered list says about the list: empty exactly when
   * nothing satisfies `p`, a single element exactly when one position does,
   * and then that element.
   */
  lemma {:induction false} FilterCounts<T>(s: seq<T>, p: T -> bool)
    ensures |Filter(s, p)| == 0 <==> forall j :: 0 <= j < |s| ==> !p(s[j])
    ensures |Filter(s, p)| == 1 <==> exists i :: OnlyAt(s, p, i)
    ensures forall i :: OnlyAt(s, p, i) ==> Filter(s, p) == [s[i]]
  {
    if |s| > 0 {
      var tail := s[1..];
      FilterCounts(tail, p);
      assert forall j :: 0 < j < |s| ==> s[j] == tail[j - 1];
      if p(s[0]) {
        assert forall i :: OnlyAt(s, p, i) ==> i == 0;
        if |Filter(s, p)| == 1 {
          assert OnlyAt(s, p, 0);
        }
      } else {
        forall i | OnlyAt(s, p, i)
          ensures OnlyAt(tail, p, i - 1)
        {
        }
        forall i | OnlyAt(tail, p, i)
          ensures OnlyAt(s, p, i + 1)
        {
        }
      }
    }
  }
}
