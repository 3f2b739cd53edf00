/**
 * List operations shared by the views and the routers: `Array.prototype.filter`
 * and `.map`, a query's `ORDER BY` on an integer key, and `OFFSET`/`LIMIT`.
 */
module Lists {
  import Js

  /** `s.filter(f)`. */
  function Filter<T(==,!new)>(s: seq<T>, f: T -> bool): (r: seq<T>)
    ensures |r| <= |s|
    ensures forall x :: x in r <==> x in s && f(x)
  {
    if s == [] then [] else (if f(s[0]) then [s[0]] else []) + Filter(s[1..], f)
  }

  /** `a` is `b` with some elements left out, the rest in their order. */
  predicate Sublist<T(==,!new)>(a: seq<T>, b: seq<T>)
    decreases |b|
  {
    if a == [] then true
    else if b == [] then false
    else if a[0] == b[0] then Sublist(a[1..], b[1..])
    else Sublist(a, b[1..])
  }

  /** A sublist of the tail is a sublist of the whole list. */
  lemma {:induction false} SublistCons<T(!new)>(a: seq<T>, x: T, b: seq<T>)
    requires Sublist(a, b)
    ensures Sublist(a, [x] + b)
    decreases |b|, 1
  {
    assert ([x] + b)[1..] == b;
    if a != [] && a[0] == x {
      SublistTail(a, b);
    }
  }

  /** Dropping the first element of the shorter list keeps it a sublist. */
  lemma {:induction false} SublistTail<T(!new)>(a: seq<T>, b: seq<T>)
    requires a != [] && Sublist(a, b)
    ensures Sublist(a[1..], b)
    decreases |b|, 0
  {
    assert [b[0]] + b[1..] == b;
    if a[0] != b[0] {
      SublistTail(a, b[1..]);
    }
    SublistCons(a[1..], b[0], b[1..]);
  }

  /** Filtering a list extended by one element filters the element on its own. */
  lemma {:induction false} FilterAppend<T(!new)>(s: seq<T>, x: T, f: T -> bool)
    ensures Filter(s + [x], f) == Filter(s, f) + (if f(x) then [x] else [])
  {
    if s == [] {
      assert [] + [x] == [x];
      assert Filter([x], f) == (if f(x) then [x] else []) + Filter([x][1..], f);
    } else {
      assert (s + [x])[0] == s[0];
      assert (s + [x])[1..] == s[1..] + [x];
      FilterAppend(s[1..], x, f);
    }
  }

  /** A filter keeps the surviving elements in their original order. */
  lemma {:induction false} FilterIsSublist<T(!new)>(s: seq<T>, f: T -> bool)
    ensures Sublist(Filter(s, f), s)
  {
    if s != [] {
      FilterIsSublist(s[1..], f);
      if f(s[0]) {
        assert Filter(s, f) == [s[0]] + Filter(s[1..], f);
      } else {
        assert Filter(s, f) == Filter(s[1..], f);
        SublistCons(Filter(s[1..], f), s[0], s[1..]);
        assert [s[0]] + s[1..] == s;
      }
    }
  }

  /** A filter every element passes gives back the whole list. */
  lemma {:induction false} FilterKeepsAll<T(!new)>(s: seq<T>, f: T -> bool)
    requires forall k :: 0 <= k < |s| ==> f(s[k])
    ensures Filter(s, f) == s
  {
    if s != [] {
      FilterKeepsAll(s[1..], f);
    }
  }

  /** A filter no element passes gives the empty list. */
  lemma {:induction false} FilterNone<T(!new)>(s: seq<T>, f: T -> bool)
    requires forall k :: 0 <= k < |s| ==> !f(s[k])
    ensures Filter(s, f) == []
  {
    if s != [] {
      FilterNone(s[1..], f);
    }
  }

  /** Two filters no element passes together count at most the whole list between them. */
  lemma {:induction false} FiltersDisjoint<T(!new)>(s: seq<T>, f: T -> bool, g: T -> bool)
    requires forall k :: 0 <= k < |s| ==> !(f(s[k]) && g(s[k]))
    ensures |Filter(s, f)| + |Filter(s, g)| <= |s|
  {
    if s != [] {
      FiltersDisjoint(s[1..], f, g);
    }
  }

  /** A filter counts at least the elements another, weaker filter counts. */
  lemma {:induction false} FilterMonotone<T(!new)>(s: seq<T>, f: T -> bool, g: T -> bool)
    requires forall k :: 0 <= k < |s| ==> f(s[k]) ==> g(s[k])
    ensures |Filter(s, f)| <= |Filter(s, g)|
  {
    if s != [] {
      FilterMonotone(s[1..], f, g);
    }
  }

  /** No two elements share a present key. */
  ghost predicate Distinct<T, K>(s: seq<T>, key: T -> Js.Option<K>) {
    forall i, j :: 0 <= i < j < |s| && key(s[i]).Some? ==> key(s[i]) != key(s[j])
  }

  /** Every element of a sublist is an element of the list. */
  lemma {:induction false} SublistMembers<T(!new)>(a: seq<T>, b: seq<T>)
    requires Sublist(a, b)
    ensures forall x :: x in a ==> x in b
    decreases |b|
  {
    if a != [] {
      if a[0] == b[0] {
        SublistMembers(a[1..], b[1..]);
        assert forall x :: x in a ==> x == a[0] || x in a[1..];
      } else {
        SublistMembers(a, b[1..]);
      }
    }
  }

  /** A sublist of a list without shared keys has none either. */
  lemma {:induction false} SublistDistinct<T(!new), K>(a: seq<T>, b: seq<T>, key: T -> Js.Option<K>)
    requires Sublist(a, b) && Distinct(b, key)
    ensures Distinct(a, key)
    decreases |b|
  {
    if a != [] {
      assert Distinct(b[1..], key) by {
        forall i, j | 0 <= i < j < |b[1..]| && key(b[1..][i]).Some?
          ensures key(b[1..][i]) != key(b[1..][j])
        {
          assert b[1..][i] == b[i + 1] && b[1..][j] == b[j + 1];
        }
      }
      if a[0] == b[0] {
        SublistDistinct(a[1..], b[1..], key);
        SublistMembers(a[1..], b[1..]);
        forall j | 0 < j < |a| && key(a[0]).Some?
          ensures key(a[0]) != key(a[j])
        {
          assert a[j] in a[1..];
          var m :| 0 <= m < |b[1..]| && b[1..][m] == a[j];
          assert b[m + 1] == a[j];
        }
        forall i, j | 0 <= i < j < |a| && key(a[i]).Some?
          ensures key(a[i]) != key(a[j])
        {
          if i > 0 {
            assert a[i] == a[1..][i - 1] && a[j] == a[1..][j - 1];
          }
        }
      } else {
        SublistDistinct(a, b[1..], key);
      }
    }
  }

  /** `s.map(f)`. */
  function Map<T, U>(s: seq<T>, f: T -> U): (r: seq<U>)
    ensures |r| == |s| && forall k :: 0 <= k < |s| ==> r[k] == f(s[k])
  {
    seq(|s|, k requires 0 <= k < |s| => f(s[k]))
  }

  /** `s` is ordered by `key`, largest first. */
  predicate Descending<T>(s: seq<T>, key: T -> int) {
    forall i, j :: 0 <= i < j < |s| ==> key(s[i]) >= key(s[j])
  }

  /** `s` is ordered by `key`, smallest first. */
  predicate Ascending<T>(s: seq<T>, key: T -> int) {
    forall i, j :: 0 <= i < j < |s| ==> key(s[i]) <= key(s[j])
  }

  /** Putting an element whose key bounds every key of a descending sequence in front keeps it descending. */
  lemma ConsDescending<T>(h: T, s: seq<T>, key: T -> int)
    requires Descending(s, key)
    requires forall k :: 0 <= k < |s| ==> key(s[k]) <= key(h)
    ensures Descending([h] + s, key)
  {
    forall i, j | 0 <= i < j < |[h] + s|
      ensures key(([h] + s)[i]) >= key(([h] + s)[j])
    {
      assert ([h] + s)[j] == s[j - 1];
      if i > 0 {
        assert ([h] + s)[i] == s[i - 1];
      }
    }
  }

  /** Every element of a sequence whose multiset is that of `s` plus `x` is bounded by a bound of both. */
  lemma BoundedBy<T>(r: seq<T>, s: seq<T>, x: T, key: T -> int, top: int)
    requires multiset(r) == multiset(s) + multiset{x}
    requires key(x) <= top && forall k :: 0 <= k < |s| ==> key(s[k]) <= top
    ensures forall k :: 0 <= k < |r| ==> key(r[k]) <= top
  {
    forall k | 0 <= k < |r|
      ensures key(r[k]) <= top
    {
      assert r[k] in multiset(r);
      if r[k] != x {
        assert r[k] in multiset(s);
        var j :| 0 <= j < |s| && s[j] == r[k];
      }
    }
  }

  /** Puts `x` in front of the first element with a smaller key. */
  function InsertDesc<T>(x: T, s: seq<T>, key: T -> int): (r: seq<T>)
    requires Descending(s, key)
    ensures multiset(r) == multiset(s) + multiset{x}
    ensures Descending(r, key)
  {
    if s == [] || key(s[0]) <= key(x) then
      ConsDescending(x, s, key);
      [x] + s
    else
      var tail := s[1..];
      var rest := InsertDesc(x, tail, key);
      assert s == [s[0]] + tail;
      assert forall k :: 0 <= k < |tail| ==> key(tail[k]) <= key(s[0]) by {
        forall k | 0 <= k < |tail|
          ensures key(tail[k]) <= key(s[0])
        {
          assert tail[k] == s[k + 1];
        }
      }
      BoundedBy(rest, tail, x, key, key(s[0]));
      ConsDescending(s[0], rest, key);
      [s[0]] + rest
  }

  /** `ORDER BY key DESC`: the same elements, largest key first. */
  function SortDesc<T>(s: seq<T>, key: T -> int): (r: seq<T>)
    ensures multiset(r) == multiset(s)
    ensures |r| == |s|
    ensures Descending(r, key)
  {
    if s == [] then []
    else
      assert s == [s[0]] + s[1..];
      InsertDesc(s[0], SortDesc(s[1..], key), key)
  }

  /** Negating the key turns a largest-first order into a smallest-first one. */
  lemma DescendingNegated<T(!new)>(s: seq<T>, key: T -> int, neg: T -> int)
    requires forall x :: neg(x) == 0 - key(x)
    requires Descending(s, neg)
    ensures Ascending(s, key)
  {
  }

  /** `ORDER BY key ASC`: sorting largest-first on the negated key. */
  function SortAsc<T(!new)>(s: seq<T>, key: T -> int): (r: seq<T>)
    ensures multiset(r) == multiset(s)
    ensures |r| == |s|
    ensures Ascending(r, key)
  {
    var neg := (x: T) => 0 - key(x);
    var r := SortDesc(s, neg);
    DescendingNegated(r, key, neg);
    r
  }

  /** How many rows `OFFSET skip LIMIT limit` keeps of `n`. */
  function PageLength(n: nat, skip: nat, limit: nat): nat {
    if skip >= n then 0 else if skip + limit <= n then limit else n - skip
  }

  /** `OFFSET skip LIMIT limit`. */
  function Page<T>(s: seq<T>, skip: nat, limit: nat): (r: seq<T>)
    ensures |r| <= limit
    ensures |r| == PageLength(|s|, skip, limit)
    ensures skip >= |s| ==> r == []
    ensures skip < |s| ==> r == s[skip..if skip + limit <= |s| then skip + limit else |s|]
  {
    if skip >= |s| then []
    else if skip + limit <= |s| then s[skip..skip + limit]
    else s[skip..]
  }

  /** `r` is the run of `s` that starts at index `skip`. */
  ghost predicate SliceAt<T>(r: seq<T>, s: seq<T>, skip: nat) {
    skip + |r| <= |s| && r == s[skip..skip + |r|]
  }

  /** A page holds only elements of the list. */
  lemma PageMembers<T>(s: seq<T>, skip: nat, limit: nat)
    ensures forall x :: x in Page(s, skip, limit) ==> x in s
  {
    var r := Page(s, skip, limit);
    forall x | x in r
      ensures x in s
    {
      var k :| 0 <= k < |r| && r[k] == x;
      assert s[skip + k] == x;
    }
  }

  /** A page of an ordered list is ordered. */
  lemma PageDescending<T>(s: seq<T>, key: T -> int, skip: nat, limit: nat)
    requires Descending(s, key)
    ensures Descending(Page(s, skip, limit), key)
  {
    var r := Page(s, skip, limit);
    forall i, j | 0 <= i < j < |r|
      ensures key(r[i]) >= key(r[j])
    {
      assert r[i] == s[skip + i] && r[j] == s[skip + j];
    }
  }

  /** A page of an ordered list is ordered. */
  lemma PageAscending<T>(s: seq<T>, key: T -> int, skip: nat, limit: nat)
    requires Ascending(s, key)
    ensures Ascending(Page(s, skip, limit), key)
  {
    var r := Page(s, skip, limit);
    forall i, j | 0 <= i < j < |r|
      ensures key(r[i]) <= key(r[j])
    {
      assert r[i] == s[skip + i] && r[j] == s[skip + j];
    }
  }

  /** `ORDER BY key DESC OFFSET skip LIMIT limit`: a page of the list, largest key first. */
  function TopPage<T>(s: seq<T>, key: T -> int, skip: nat, limit: nat): (r: seq<T>)
    ensures |r| <= limit
    ensures |r| == PageLength(|s|, skip, limit)
    ensures skip < |s| ==> SliceAt(r, SortDesc(s, key), skip)
    ensures Descending(r, key)
    ensures forall x :: x in r ==> x in s
  {
    var sorted := SortDesc(s, key);
    var r := Page(sorted, skip, limit);
    PageDescending(sorted, key, skip, limit);
    PageMembers(sorted, skip, limit);
    SortedMembers(s, sorted);
    assert skip < |s| ==> r == sorted[skip..skip + |r|];
    r
  }

  /** A permutation holds only elements of the original list. */
  lemma SortedMembers<T>(s: seq<T>, sorted: seq<T>)
    requires multiset(sorted) == multiset(s)
    ensures forall x :: x in sorted ==> x in s
  {
    forall x | x in sorted
      ensures x in s
    {
      assert x in multiset(sorted);
    }
  }

  /** The first page, when it is large enough, holds the whole list. */
  lemma TopPageHoldsAll<T>(s: seq<T>, key: T -> int, limit: nat)
    requires limit >= |s|
    ensures forall x :: x in s ==> x in TopPage(s, key, 0, limit)
  {
    var sorted := SortDesc(s, key);
    assert |sorted| == |s| by {
      assert |multiset(sorted)| == |multiset(s)|;
    }
    assert Page(sorted, 0, limit) == sorted;
    forall x | x in s
      ensures x in sorted
    {
      assert x in multiset(sorted);
    }
  }

  /** The first page of the smallest-first order, when it is large enough, holds the whole list. */
  lemma AscPageHoldsAll<T(!new)>(s: seq<T>, key: T -> int, limit: nat)
    requires limit >= |s|
    ensures forall x :: x in s ==> x in Page(SortAsc(s, key), 0, limit)
  {
    var sorted := SortAsc(s, key);
    assert |sorted| == |s| by {
      assert |multiset(sorted)| == |multiset(s)|;
    }
    assert Page(sorted, 0, limit) == sorted;
    forall x | x in s
      ensures x in sorted
    {
      assert x in multiset(sorted);
    }
  }

  /** The first page of the largest-first order holds the largest keys: nothing left off it has a larger key than anything on it. */
  lemma TopPageLargest<T>(s: seq<T>, key: T -> int, limit: nat)
    ensures var r := TopPage(s, key, 0, limit);
            forall x, y :: x in s && x !in r && y in r ==> key(x) <= key(y)
  {
    var sorted := SortDesc(s, key);
    var r := TopPage(s, key, 0, limit);
    assert r == sorted[..|r|];
    forall x, y | x in s && x !in r && y in r
      ensures key(x) <= key(y)
    {
      assert x in multiset(sorted);
      var i :| 0 <= i < |sorted| && sorted[i] == x;
      var j :| 0 <= j < |r| && r[j] == y;
      assert i >= |r| by {
        assert forall k :: 0 <= k < |r| ==> r[k] == sorted[k];
      }
      assert sorted[j] == y;
    }
  }

  /** The first page of the smallest-first order holds the smallest keys: nothing left off it has a smaller key than anything on it. */
  lemma AscPageSmallest<T(!new)>(s: seq<T>, key: T -> int, limit: nat)
    ensures var r := Page(SortAsc(s, key), 0, limit);
            forall x, y :: x in s && x !in r && y in r ==> key(y) <= key(x)
  {
    var sorted := SortAsc(s, key);
    var r := Page(sorted, 0, limit);
    assert r == sorted[..|r|];
    forall x, y | x in s && x !in r && y in r
      ensures key(y) <= key(x)
    {
      assert x in multiset(sorted);
      var i :| 0 <= i < |sorted| && sorted[i] == x;
      var j :| 0 <= j < |r| && r[j] == y;
      assert i >= |r| by {
        assert forall k :: 0 <= k < |r| ==> r[k] == sorted[k];
      }
      assert sorted[j] == y;
    }
  }
}
