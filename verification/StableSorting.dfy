/** A stable sort over an arbitrary strict weak order, as Python's `list.sort` promises it.

    `above(a, b)` says that `a` must come before `b`; elements of which neither is above the
    other are tied, and a stable sort keeps tied elements in their input order. */
module StableSorting {

  ghost predicate StrictWeakOrder<T(!new)>(above: (T, T) -> bool) {
    && (forall a, b :: above(a, b) ==> !above(b, a))
    && (forall a, b, c :: above(a, c) ==> above(a, b) || above(b, c))
  }

  predicate Tied<T>(above: (T, T) -> bool, a: T, b: T) {
    !above(a, b) && !above(b, a)
  }

  ghost predicate Sorted<T>(s: seq<T>, above: (T, T) -> bool) {
    forall i, j :: 0 <= i < j < |s| ==> !above(s[j], s[i])
  }

  /** `x` arrives after every element of `s`, so it goes below everything it is tied with. */
  function Insert<T>(x: T, s: seq<T>, above: (T, T) -> bool): seq<T> {
    if s == [] || above(x, s[0]) then [x] + s else [s[0]] + Insert(x, s[1..], above)
  }

  function Sort<T>(s: seq<T>, above: (T, T) -> bool): seq<T> {
    if s == [] then [] else Insert(s[|s| - 1], Sort(s[..|s| - 1], above), above)
  }

  function Filter<T>(s: seq<T>, p: T -> bool): seq<T> {
    if s == [] then [] else (if p(s[0]) then [s[0]] else []) + Filter(s[1..], p)
  }

  /** The elements of `s` tied with `x`, in the order in which `s` has them. */
  function TieClass<T>(s: seq<T>, x: T, above: (T, T) -> bool): seq<T> {
    if s == [] then []
    else (if Tied(above, x, s[0]) then [s[0]] else []) + TieClass(s[1..], x, above)
  }

  lemma {:induction false} InsertPermutes<T>(x: T, s: seq<T>, above: (T, T) -> bool)
    ensures multiset(Insert(x, s, above)) == multiset(s) + multiset{x}
  {
    if s == [] || above(x, s[0]) {
    } else {
      InsertPermutes(x, s[1..], above);
      assert s == [s[0]] + s[1..];
    }
  }

  lemma {:induction false} SortPermutes<T>(s: seq<T>, above: (T, T) -> bool)
    ensures multiset(Sort(s, above)) == multiset(s)
    ensures |Sort(s, above)| == |s|
  {
    if s != [] {
      var init := s[..|s| - 1];
      SortPermutes(init, above);
      InsertPermutes(s[|s| - 1], Sort(init, above), above);
      assert s == init + [s[|s| - 1]];
      assert multiset(Sort(s, above)) == multiset(s);
      assert |multiset(Sort(s, above))| == |multiset(s)|;
    }
  }

  lemma {:induction false} InsertSorted<T(!new)>(x: T, s: seq<T>, above: (T, T) -> bool)
    requires StrictWeakOrder(above) && Sorted(s, above)
    ensures Sorted(Insert(x, s, above), above)
  {
    if s == [] {
    } else if above(x, s[0]) {
      var r := [x] + s;
      forall i, j | 0 <= i < j < |r| ensures !above(r[j], r[i]) {
        if i == 0 {
          assert !above(s[0], x);
          assert j == 1 || !above(s[j - 1], s[0]);
        }
      }
    } else {
      var t := Insert(x, s[1..], above);
      InsertSorted(x, s[1..], above);
      InsertPermutes(x, s[1..], above);
      var r := [s[0]] + t;
      forall i, j | 0 <= i < j < |r| ensures !above(r[j], r[i]) {
        if i == 0 {
          assert r[j] in multiset(t);
          assert r[j] == x || r[j] in s[1..];
        }
      }
    }
  }

  lemma {:induction false} SortSorted<T(!new)>(s: seq<T>, above: (T, T) -> bool)
    requires StrictWeakOrder(above)
    ensures Sorted(Sort(s, above), above)
  {
    if s != [] {
      SortSorted(s[..|s| - 1], above);
      InsertSorted(s[|s| - 1], Sort(s[..|s| - 1], above), above);
    }
  }

  lemma TieClassCons<T>(h: T, t: seq<T>, x: T, above: (T, T) -> bool)
    ensures TieClass([h] + t, x, above) == (if Tied(above, x, h) then [h] else []) + TieClass(t, x, above)
  {
    assert ([h] + t)[1..] == t;
  }

  lemma {:induction false} TieClassAppend<T>(s: seq<T>, y: T, x: T, above: (T, T) -> bool)
    ensures TieClass(s + [y], x, above) == TieClass(s, x, above) + (if Tied(above, x, y) then [y] else [])
  {
    if s == [] {
      TieClassCons(y, [], x, above);
      assert s + [y] == [y] + [];
    } else {
      var h, rest := s[0], s[1..];
      TieClassAppend(rest, y, x, above);
      TieClassCons(h, rest + [y], x, above);
      TieClassCons(h, rest, x, above);
      assert s + [y] == [h] + (rest + [y]) && s == [h] + rest;
    }
  }

  lemma {:induction false} TieClassMembers<T>(s: seq<T>, x: T, above: (T, T) -> bool)
    ensures forall y :: y in TieClass(s, x, above) <==> y in s && Tied(above, x, y)
  {
    if s != [] {
      TieClassMembers(s[1..], x, above);
    }
  }

  lemma {:induction false} NoTieBelow<T(!new)>(y: T, s: seq<T>, x: T, above: (T, T) -> bool)
    requires StrictWeakOrder(above)
    requires Tied(above, x, y) && forall i :: 0 <= i < |s| ==> above(y, s[i])
    ensures TieClass(s, x, above) == []
  {
    if s != [] {
      assert above(x, s[0]) || above(y, x);
      NoTieBelow(y, s[1..], x, above);
    }
  }

  lemma AboveHeadAboveAll<T(!new)>(y: T, s: seq<T>, above: (T, T) -> bool)
    requires StrictWeakOrder(above) && Sorted(s, above) && s != [] && above(y, s[0])
    ensures forall i :: 0 <= i < |s| ==> above(y, s[i])
  {
    forall i | 0 <= i < |s| ensures above(y, s[i]) {
      assert i == 0 || !above(s[i], s[0]);
    }
  }

  lemma SortedTail<T>(s: seq<T>, above: (T, T) -> bool)
    requires Sorted(s, above) && s != []
    ensures Sorted(s[1..], above)
  {
  }

  lemma InsertTieClassHere<T(!new)>(y: T, s: seq<T>, x: T, above: (T, T) -> bool)
    requires StrictWeakOrder(above) && Sorted(s, above)
    requires s == [] || above(y, s[0])
    ensures TieClass([y] + s, x, above) == TieClass(s, x, above) + (if Tied(above, x, y) then [y] else [])
  {
    TieClassCons(y, s, x, above);
    if s != [] && Tied(above, x, y) {
      AboveHeadAboveAll(y, s, above);
      NoTieBelow(y, s, x, above);
    }
  }

  lemma {:induction false} InsertTieClass<T(!new)>(y: T, s: seq<T>, x: T, above: (T, T) -> bool)
    requires StrictWeakOrder(above) && Sorted(s, above)
    ensures TieClass(Insert(y, s, above), x, above)
         == TieClass(s, x, above) + (if Tied(above, x, y) then [y] else [])
  {
    if s == [] || above(y, s[0]) {
      InsertTieClassHere(y, s, x, above);
    } else {
      var h, rest := s[0], s[1..];
      SortedTail(s, above);
      InsertTieClass(y, rest, x, above);
      TieClassCons(h, Insert(y, rest, above), x, above);
      TieClassCons(h, rest, x, above);
      assert s == [h] + rest;
    }
  }

  /** Stability: every class of tied elements keeps its input order. */
  lemma {:induction false} SortStable<T(!new)>(s: seq<T>, x: T, above: (T, T) -> bool)
    requires StrictWeakOrder(above)
    ensures TieClass(Sort(s, above), x, above) == TieClass(s, x, above)
  {
    if s != [] {
      var init := s[..|s| - 1];
      SortStable(init, x, above);
      SortSorted(init, above);
      InsertTieClass(s[|s| - 1], Sort(init, above), x, above);
      TieClassAppend(init, s[|s| - 1], x, above);
      assert s == init + [s[|s| - 1]];
    }
  }

  lemma HeadOfOther<T(!new)>(u: seq<T>, v: seq<T>, above: (T, T) -> bool)
    requires StrictWeakOrder(above) && Sorted(u, above) && u != [] && v != []
    requires forall x :: TieClass(u, x, above) == TieClass(v, x, above)
    ensures !above(v[0], u[0])
  {
    TieClassMembers(v, v[0], above);
    TieClassMembers(u, v[0], above);
    assert v[0] in TieClass(u, v[0], above);
  }

  lemma {:induction false} TieClassLength<T(!new)>(s: seq<T>, t: seq<T>, above: (T, T) -> bool)
    requires forall x :: TieClass(s, x, above) == TieClass(t, x, above)
    requires StrictWeakOrder(above)
    ensures s == [] ==> t == []
  {
    if t != [] {
      TieClassMembers(t, t[0], above);
      TieClassMembers(s, t[0], above);
      assert t[0] in TieClass(s, t[0], above);
    }
  }

  /** Two sorted sequences with the same tie classes are the same sequence. */
  lemma {:induction false} StableSortUnique<T(!new)>(u: seq<T>, v: seq<T>, above: (T, T) -> bool)
    requires StrictWeakOrder(above) && Sorted(u, above) && Sorted(v, above)
    requires forall x :: TieClass(u, x, above) == TieClass(v, x, above)
    ensures u == v
  {
    TieClassLength(u, v, above);
    TieClassLength(v, u, above);
    if u != [] {
      HeadOfOther(u, v, above);
      HeadOfOther(v, u, above);
      assert TieClass(u, u[0], above)[0] == u[0];
      assert TieClass(v, u[0], above)[0] == v[0];
      forall x ensures TieClass(u[1..], x, above) == TieClass(v[1..], x, above) {
        var head := if Tied(above, x, u[0]) then [u[0]] else [];
        assert TieClass(u, x, above) == head + TieClass(u[1..], x, above);
        assert TieClass(v, x, above) == head + TieClass(v[1..], x, above);
        assert TieClass(u[1..], x, above) == TieClass(u, x, above)[|head|..];
      }
      SortedTail(u, above);
      SortedTail(v, above);
      StableSortUnique(u[1..], v[1..], above);
      assert u == [u[0]] + u[1..];
      assert v == [v[0]] + v[1..];
    }
  }

  /** Nothing is above the element at `i`, and what is tied with it comes later. */
  ghost predicate IsHead<T>(s: seq<T>, i: nat, above: (T, T) -> bool)
    requires i < |s|
  {
    forall j :: 0 <= j < |s| && j != i ==> above(s[i], s[j]) || (Tied(above, s[i], s[j]) && i < j)
  }

  lemma HeadExtended<T(!new)>(s: seq<T>, k: nat, x: T, above: (T, T) -> bool)
    requires StrictWeakOrder(above) && k < |s| && IsHead(s, k, above)
    ensures above(x, s[k]) ==> IsHead(s + [x], |s|, above)
    ensures !above(x, s[k]) ==> IsHead(s + [x], k, above)
  {
    var t := s + [x];
    if above(x, s[k]) {
      forall j | 0 <= j < |t| && j != |s| ensures above(x, t[j]) {
        assert j == k || above(s[k], s[j]) || Tied(above, s[k], s[j]);
      }
    }
  }

  /** The first place of the result goes to the element nothing is above, and among those
      to the one that comes first in the input. */
  lemma {:induction false} SortHead<T(!new)>(s: seq<T>, above: (T, T) -> bool) returns (i: nat)
    requires StrictWeakOrder(above) && s != []
    ensures i < |s| && |Sort(s, above)| == |s| && Sort(s, above)[0] == s[i]
    ensures IsHead(s, i, above)
  {
    var n := |s| - 1;
    var init := s[..n];
    SortPermutes(s, above);
    SortPermutes(init, above);
    if n == 0 {
      assert Sort(init, above) == [];
      i := 0;
    } else {
      hide IsHead;
      var k := SortHead(init, above);
      HeadExtended(init, k, s[n], above);
      assert s == init + [s[n]];
      i := if above(s[n], s[k]) then n else k;
    }
  }

  lemma {:induction false} FilterMembers<T>(s: seq<T>, p: T -> bool)
    ensures forall y :: y in Filter(s, p) <==> y in s && p(y)
    ensures |Filter(s, p)| <= |s|
  {
    if s != [] {
      FilterMembers(s[1..], p);
    }
  }

  lemma {:induction false} FilterAll<T>(s: seq<T>, p: T -> bool)
    requires forall i :: 0 <= i < |s| ==> p(s[i])
    ensures Filter(s, p) == s
  {
    if s != [] {
      FilterAll(s[1..], p);
    }
  }

  lemma FilterCons<T>(h: T, t: seq<T>, p: T -> bool)
    ensures Filter([h] + t, p) == (if p(h) then [h] else []) + Filter(t, p)
  {
    assert ([h] + t)[1..] == t;
  }

  lemma FilterSingle<T>(x: T, p: T -> bool)
    ensures Filter([x], p) == if p(x) then [x] else []
  {
    assert [x][1..] == [];
  }

  lemma {:induction false} FilterConcat<T>(s: seq<T>, t: seq<T>, p: T -> bool)
    ensures Filter(s + t, p) == Filter(s, p) + Filter(t, p)
  {
    if s == [] {
      assert s + t == t;
    } else {
      var h, rest := s[0], s[1..];
      FilterConcat(rest, t, p);
      FilterCons(h, rest + t, p);
      FilterCons(h, rest, p);
      assert s == [h] + rest && s + t == [h] + (rest + t);
    }
  }

  lemma {:induction false} InsertFilter<T(!new)>(x: T, s: seq<T>, p: T -> bool, above: (T, T) -> bool)
    requires StrictWeakOrder(above) && Sorted(s, above)
    ensures Filter(Insert(x, s, above), p) == if p(x) then Insert(x, Filter(s, p), above) else Filter(s, p)
  {
    if s == [] {
      assert [x][1..] == [];
    } else if above(x, s[0]) {
      assert ([x] + s)[1..] == s;
      AboveHeadAboveAll(x, s, above);
      FilterMembers(s, p);
      assert Filter(s, p) != [] ==> Filter(s, p)[0] in s;
    } else {
      var t := Insert(x, s[1..], above);
      assert ([s[0]] + t)[1..] == t;
      SortedTail(s, above);
      InsertFilter(x, s[1..], p, above);
      if p(s[0]) {
        assert Filter(s, p)[1..] == Filter(s[1..], p);
        assert Filter(s, p)[0] == s[0];
      } else {
        assert Filter(s, p) == Filter(s[1..], p);
      }
    }
  }

  /** Sorting commutes with dropping elements: what is dropped never moves what stays. */
  lemma {:induction false} SortFilter<T(!new)>(s: seq<T>, p: T -> bool, above: (T, T) -> bool)
    requires StrictWeakOrder(above)
    ensures Filter(Sort(s, above), p) == Sort(Filter(s, p), above)
  {
    if s != [] {
      var init, x := s[..|s| - 1], s[|s| - 1];
      SortFilter(init, p, above);
      SortSorted(init, above);
      InsertFilter(x, Sort(init, above), p, above);
      FilterConcat(init, [x], p);
      assert s == init + [x];
      assert [x][1..] == [];
      if p(x) {
        var f := Filter(init, p) + [x];
        assert Filter(s, p) == f;
        assert f[..|f| - 1] == Filter(init, p);
      } else {
        assert Filter(s, p) == Filter(init, p);
      }
    }
  }

  /** How many elements of `s` the pivot is not above. */
  function CountReaching<T>(s: seq<T>, pivot: T, above: (T, T) -> bool): nat {
    if s == [] then 0
    else (if above(pivot, s[0]) then 0 else 1) + CountReaching(s[1..], pivot, above)
  }

  lemma {:induction false} CountConcat<T>(s: seq<T>, t: seq<T>, pivot: T, above: (T, T) -> bool)
    ensures CountReaching(s + t, pivot, above) == CountReaching(s, pivot, above) + CountReaching(t, pivot, above)
  {
    if s == [] {
      assert s + t == t;
    } else {
      assert (s + t)[1..] == s[1..] + t;
      CountConcat(s[1..], t, pivot, above);
    }
  }

  /** The first element of `s`, found and taken out of a permutation of `s`. */
  lemma TakeOut<T>(s: seq<T>, t: seq<T>) returns (before: seq<T>, after: seq<T>)
    requires s != [] && multiset(s) == multiset(t)
    ensures t == before + ([s[0]] + after)
    ensures multiset(s[1..]) == multiset(before + after)
  {
    assert s[0] in multiset(t);
    var k :| 0 <= k < |t| && t[k] == s[0];
    before, after := t[..k], t[k + 1..];
    assert s == [s[0]] + s[1..];
    assert multiset(t) == multiset(before) + (multiset{s[0]} + multiset(after)) by {
      assert t == before + ([s[0]] + after);
    }
    assert multiset(s[1..]) == multiset(s) - multiset{s[0]};
  }

  lemma {:induction false} CountPermutes<T>(s: seq<T>, t: seq<T>, pivot: T, above: (T, T) -> bool)
    requires multiset(s) == multiset(t)
    ensures CountReaching(s, pivot, above) == CountReaching(t, pivot, above)
  {
    if s == [] {
      assert |multiset(t)| == 0;
    } else {
      var before, after := TakeOut(s, t);
      CountPermutes(s[1..], before + after, pivot, above);
      CountConcat(before, after, pivot, above);
      CountConcat(before, [s[0]] + after, pivot, above);
      assert ([s[0]] + after)[1..] == after;
    }
  }

  lemma {:induction false} CountBounds<T>(s: seq<T>, n: nat, pivot: T, above: (T, T) -> bool)
    requires n <= |s|
    ensures (forall i :: 0 <= i < n ==> !above(pivot, s[i])) ==> CountReaching(s, pivot, above) >= n
    ensures (forall i :: n <= i < |s| ==> above(pivot, s[i])) ==> CountReaching(s, pivot, above) <= n
  {
    if s != [] {
      CountBounds(s[1..], if n == 0 then 0 else n - 1, pivot, above);
      assert forall i :: 1 <= i < |s| ==> s[i] == s[1..][i - 1];
    }
  }

  lemma NotAboveAt<T(!new)>(u: seq<T>, v: seq<T>, i: nat, above: (T, T) -> bool)
    requires StrictWeakOrder(above) && Sorted(u, above) && Sorted(v, above)
    requires multiset(u) == multiset(v) && i < |u| && i < |v|
    ensures !above(u[i], v[i])
  {
    var pivot := u[i];
    assert above(pivot, v[i]) ==> forall j :: i <= j < |v| ==> above(pivot, v[j]);
    CountBounds(u, i + 1, pivot, above);
    CountPermutes(u, v, pivot, above);
    CountBounds(v, i, pivot, above);
  }

  /** Permuting the input moves elements only inside their class of ties. */
  lemma SortOfPermutation<T(!new)>(s: seq<T>, t: seq<T>, above: (T, T) -> bool)
    requires StrictWeakOrder(above) && multiset(s) == multiset(t)
    ensures |Sort(s, above)| == |Sort(t, above)|
    ensures forall i :: 0 <= i < |Sort(s, above)| ==> Tied(above, Sort(s, above)[i], Sort(t, above)[i])
  {
    var u, v := Sort(s, above), Sort(t, above);
    SortPermutes(s, above);
    SortPermutes(t, above);
    SortSorted(s, above);
    SortSorted(t, above);
    assert |multiset(u)| == |multiset(v)|;
    forall i | 0 <= i < |u| ensures Tied(above, u[i], v[i]) {
      NotAboveAt(u, v, i, above);
      NotAboveAt(v, u, i, above);
    }
  }

  lemma {:induction false} InsertAtEnd<T>(x: T, s: seq<T>, above: (T, T) -> bool)
    requires forall i :: 0 <= i < |s| ==> !above(x, s[i])
    ensures Insert(x, s, above) == s + [x]
  {
    if s != [] {
      InsertAtEnd(x, s[1..], above);
    }
  }

  /** Sorting what is sorted changes nothing. */
  lemma {:induction false} SortOfSorted<T(!new)>(s: seq<T>, above: (T, T) -> bool)
    requires Sorted(s, above)
    ensures Sort(s, above) == s
  {
    if s != [] {
      var n := |s| - 1;
      SortOfSorted(s[..n], above);
      InsertAtEnd(s[n], s[..n], above);
    }
  }

  /** Filtering after sorting: sorted, and a permutation of filtering alone. */
  lemma FilteredSort<T(!new)>(s: seq<T>, p: T -> bool, above: (T, T) -> bool)
    requires StrictWeakOrder(above)
    ensures Sorted(Filter(Sort(s, above), p), above)
    ensures multiset(Filter(Sort(s, above), p)) == multiset(Filter(s, p))
    ensures forall x :: x in Filter(Sort(s, above), p) ==> x in s
  {
    SortFilter(s, p, above);
    SortSorted(Filter(s, p), above);
    SortPermutes(Filter(s, p), above);
    FilterMembers(s, p);
    forall x | x in Filter(Sort(s, above), p) ensures x in s {
      assert x in multiset(Filter(s, p));
    }
  }

  lemma {:induction false} FilterSource<T>(s: seq<T>, p: T -> bool, j: nat) returns (k: nat)
    requires j < |Filter(s, p)|
    ensures k < |s| && s[k] == Filter(s, p)[j] && p(s[k])
  {
    if p(s[0]) && j == 0 {
      k := 0;
    } else {
      k := FilterSource(s[1..], p, if p(s[0]) then j - 1 else j);
      k := k + 1;
    }
  }

  lemma {:induction false} FilterKeepsDistinct<T>(s: seq<T>, p: T -> bool)
    requires forall i, j :: 0 <= i < j < |s| ==> s[i] != s[j]
    ensures forall i, j :: 0 <= i < j < |Filter(s, p)| ==> Filter(s, p)[i] != Filter(s, p)[j]
  {
    if s != [] {
      var f := Filter(s[1..], p);
      FilterKeepsDistinct(s[1..], p);
      forall j | 0 <= j < |f| ensures f[j] != s[0] {
        var k := FilterSource(s[1..], p, j);
        assert s[0] != s[k + 1];
      }
      assert Filter(s, p) == (if p(s[0]) then [s[0]] else []) + f;
    }
  }

  lemma OccursTwice<T>(t: seq<T>, i: nat, j: nat)
    requires i < j < |t| && t[i] == t[j]
    ensures multiset(t)[t[i]] >= 2
  {
    var before, after := t[..j], t[j + 1..];
    assert t == before + [t[j]] + after;
    assert before[i] == t[i];
  }

  lemma SameMultisetDistinct<T>(s: seq<T>, t: seq<T>)
    requires forall i, j :: 0 <= i < j < |s| ==> s[i] != s[j]
    requires multiset(s) == multiset(t)
    ensures forall i, j :: 0 <= i < j < |t| ==> t[i] != t[j]
    ensures forall x :: x in s <==> x in t
  {
    forall i, j | 0 <= i < j < |t| ensures t[i] != t[j] {
      DistinctCounts(s, t[i]);
      if t[i] == t[j] {
        OccursTwice(t, i, j);
      }
    }
    forall x ensures x in s <==> x in t {
      assert x in s <==> x in multiset(s);
      assert x in t <==> x in multiset(t);
    }
  }

  lemma {:induction false} DistinctCounts<T>(s: seq<T>, x: T)
    requires forall i, j :: 0 <= i < j < |s| ==> s[i] != s[j]
    ensures multiset(s)[x] == if x in s then 1 else 0
  {
    if s != [] {
      DistinctCounts(s[1..], x);
      assert s == [s[0]] + s[1..];
      forall j | 0 <= j < |s[1..]| ensures s[1..][j] != s[0] {
        assert s[0] != s[j + 1];
      }
    }
  }

  /** Two duplicate-free sequences with the same members are permutations of each other. */
  lemma DistinctSameMembers<T>(s: seq<T>, t: seq<T>)
    requires forall i, j :: 0 <= i < j < |s| ==> s[i] != s[j]
    requires forall i, j :: 0 <= i < j < |t| ==> t[i] != t[j]
    requires forall x :: x in s <==> x in t
    ensures multiset(s) == multiset(t)
  {
    forall x ensures multiset(s)[x] == multiset(t)[x] {
      DistinctCounts(s, x);
      DistinctCounts(t, x);
    }
  }
}
