/** sort.Sort by name: some unstable sort, of which only its contract is used. */
module Sorting {

  datatype Named<+T> = Named(name: string, spec: T)

  /** Go's <= on strings. */
  predicate LessEq(a: string, b: string) {
    a == [] || (b != [] && (a[0] < b[0] || (a[0] == b[0] && LessEq(a[1..], b[1..]))))
  }

  lemma {:induction false} LessEqTotal(a: string, b: string)
    ensures LessEq(a, b) || LessEq(b, a)
    ensures LessEq(a, b) && LessEq(b, a) ==> a == b
  {
    if a != [] && b != [] && a[0] == b[0] {
      LessEqTotal(a[1..], b[1..]);
      assert a == [a[0]] + a[1..] && b == [b[0]] + b[1..];
    }
  }

  lemma {:induction false} LessEqTransitive(a: string, b: string, c: string)
    requires LessEq(a, b) && LessEq(b, c)
    ensures LessEq(a, c)
  {
    if a != [] && b != [] && c != [] && a[0] == b[0] == c[0] {
      LessEqTransitive(a[1..], b[1..], c[1..]);
    }
  }

  /** At the first place where the two differ, a has the smaller character. */
  predicate SmallerAt(a: string, b: string, i: int) {
    0 <= i < |a| && i < |b| && a[..i] == b[..i] && a[i] < b[i]
  }

  /** The alphabetical order: a is a prefix of b, or smaller where they first differ. */
  ghost predicate Alphabetical(a: string, b: string) {
    a <= b || exists i :: SmallerAt(a, b, i)
  }

  lemma SameFirst(a: string, b: string, i: int)
    requires SmallerAt(a, b, i)
    ensures i > 0 ==> a[0] == b[0]
  {
    if i > 0 {
      assert a[0] == a[..i][0] == b[..i][0] == b[0];
    }
  }

  lemma {:induction false} LessEqIffAlphabetical(a: string, b: string)
    ensures LessEq(a, b) <==> Alphabetical(a, b)
  {
    if a == [] || b == [] {
    } else if a[0] == b[0] {
      LessEqIffAlphabetical(a[1..], b[1..]);
      assert a == [a[0]] + a[1..] && b == [b[0]] + b[1..];
      forall i | 0 <= i < |a[1..]| && i < |b[1..]| ensures SmallerAt(a[1..], b[1..], i) <==> SmallerAt(a, b, i + 1) {
        assert a[..i + 1] == [a[0]] + a[1..][..i] && b[..i + 1] == [b[0]] + b[1..][..i];
      }
      assert Alphabetical(a, b) ==> Alphabetical(a[1..], b[1..]) by {
        if i :| SmallerAt(a, b, i) {
          assert SmallerAt(a[1..], b[1..], i - 1);
        }
      }
    } else {
      assert a[0] < b[0] ==> SmallerAt(a, b, 0);
      forall i | SmallerAt(a, b, i) ensures i == 0 {
        SameFirst(a, b, i);
      }
    }
  }

  /** The items stand in the alphabetical order of their names. */
  ghost predicate InNameOrder<T>(xs: seq<Named<T>>) {
    forall i, j :: 0 <= i < j < |xs| ==> Alphabetical(xs[i].name, xs[j].name)
  }

  lemma SortedIffInNameOrder<T>(xs: seq<Named<T>>)
    ensures SortedByName(xs) <==> InNameOrder(xs)
  {
    forall i, j | 0 <= i < j < |xs|
      ensures LessEq(xs[i].name, xs[j].name) <==> Alphabetical(xs[i].name, xs[j].name)
    {
      LessEqIffAlphabetical(xs[i].name, xs[j].name);
    }
  }

  ghost predicate SortedByName<T>(xs: seq<Named<T>>) {
    forall i, j :: 0 <= i < j < |xs| ==> LessEq(xs[i].name, xs[j].name)
  }

  ghost predicate DistinctNames<T>(xs: seq<Named<T>>) {
    forall i, j :: 0 <= i < j < |xs| ==> xs[i].name != xs[j].name
  }

  ghost predicate SortedPermutation<T>(sorted: seq<Named<T>>, xs: seq<Named<T>>) {
    SortedByName(sorted) && multiset(sorted) == multiset(xs)
  }

  /** The items from lo on that have the least name; ties are broken arbitrarily. */
  method SelectLeast<T>(xs: seq<Named<T>>, lo: nat) returns (least: nat)
    requires lo < |xs|
    ensures lo <= least < |xs|
    ensures forall k :: lo <= k < |xs| ==> LessEq(xs[least].name, xs[k].name)
  {
    least := lo;
    LessEqTotal(xs[lo].name, xs[lo].name);
    for i := lo + 1 to |xs|
      invariant lo <= least < i
      invariant forall k :: lo <= k < i ==> LessEq(xs[least].name, xs[k].name)
    {
      LessEqTotal(xs[least].name, xs[i].name);
      LessEqTotal(xs[i].name, xs[i].name);
      var takeLater: bool := *;
      if !LessEq(xs[least].name, xs[i].name) || (xs[i].name == xs[least].name && takeLater) {
        forall k | lo <= k < i ensures LessEq(xs[i].name, xs[k].name) {
          LessEqTransitive(xs[i].name, xs[least].name, xs[k].name);
        }
        least := i;
      }
    }
  }

  method Sort<T>(xs: seq<Named<T>>) returns (sorted: seq<Named<T>>)
    ensures SortedPermutation(sorted, xs) && InNameOrder(sorted)
  {
    sorted := xs;
    for i := 0 to |xs|
      invariant |sorted| == |xs| && multiset(sorted) == multiset(xs)
      invariant forall j, k :: 0 <= j < i && j < k < |sorted| ==> LessEq(sorted[j].name, sorted[k].name)
    {
      var least := SelectLeast(sorted, i);
      sorted := sorted[i := sorted[least]][least := sorted[i]];
    }
    SortedIffInNameOrder(sorted);
  }

  /** A sorted order exists for every list. */
  lemma {:induction false} SortExists<T>(xs: seq<Named<T>>) returns (p: seq<Named<T>>)
    ensures SortedPermutation(p, xs)
  {
    if xs == [] {
      p := [];
    } else {
      var rest := SortExists(xs[1..]);
      p := InsertSorted(rest, xs[0]);
      assert xs == [xs[0]] + xs[1..];
    }
  }

  lemma {:induction false} InsertSorted<T>(xs: seq<Named<T>>, x: Named<T>) returns (p: seq<Named<T>>)
    requires SortedByName(xs)
    ensures SortedByName(p) && multiset(p) == multiset(xs) + multiset{x}
  {
    if xs == [] {
      p := [x];
    } else {
      LessEqTotal(x.name, xs[0].name);
      if LessEq(x.name, xs[0].name) {
        p := [x] + xs;
        forall j | 0 <= j < |xs| ensures LessEq(x.name, xs[j].name) {
          LeastFirst(xs, xs[j]);
          LessEqTransitive(x.name, xs[0].name, xs[j].name);
        }
      } else {
        var rest := InsertSorted(xs[1..], x);
        p := [xs[0]] + rest;
        HeadStaysLeast(xs, x, rest);
        assert xs == [xs[0]] + xs[1..];
      }
    }
  }

  lemma HeadStaysLeast<T>(xs: seq<Named<T>>, x: Named<T>, rest: seq<Named<T>>)
    requires xs != [] && SortedByName(xs) && LessEq(xs[0].name, x.name)
    requires multiset(rest) == multiset(xs[1..]) + multiset{x}
    ensures forall j :: 0 <= j < |rest| ==> LessEq(xs[0].name, rest[j].name)
  {
    forall j | 0 <= j < |rest| ensures LessEq(xs[0].name, rest[j].name) {
      assert rest[j] in multiset(rest);
      assert rest[j] == x || rest[j] in xs[1..];
      if rest[j] in xs {
        LeastFirst(xs, rest[j]);
      }
    }
  }

  lemma MemberOfBoth<T>(xs: seq<T>, ys: seq<T>, x: T)
    requires multiset(xs) == multiset(ys)
    ensures x in xs <==> x in ys
  {
    assert x in xs <==> x in multiset(xs);
    assert x in ys <==> x in multiset(ys);
  }

  lemma LeastFirst<T>(xs: seq<Named<T>>, x: Named<T>)
    requires SortedByName(xs) && x in xs
    ensures LessEq(xs[0].name, x.name)
  {
    LessEqTotal(x.name, x.name);
  }

  /** With distinct names there is only one sorted order. */
  lemma {:induction false} SortedUnique<T>(xs: seq<Named<T>>, ys: seq<Named<T>>)
    requires SortedByName(xs) && SortedByName(ys) && multiset(xs) == multiset(ys)
    requires DistinctNames(xs)
    ensures xs == ys
  {
    SameLength(xs, ys);
    if xs != [] {
      SameHead(xs, ys);
      SameTail(xs, ys);
      SortedUnique(xs[1..], ys[1..]);
      assert xs == [xs[0]] + xs[1..] && ys == [ys[0]] + ys[1..];
    }
  }

  lemma SameHead<T>(xs: seq<Named<T>>, ys: seq<Named<T>>)
    requires SortedByName(xs) && SortedByName(ys) && multiset(xs) == multiset(ys)
    requires DistinctNames(xs) && xs != [] && ys != []
    ensures xs[0] == ys[0]
  {
    MemberOfBoth(xs, ys, xs[0]);
    MemberOfBoth(xs, ys, ys[0]);
    LeastFirst(xs, ys[0]);
    LeastFirst(ys, xs[0]);
    LessEqTotal(xs[0].name, ys[0].name);
  }

  lemma SameTail<T>(xs: seq<T>, ys: seq<T>)
    requires multiset(xs) == multiset(ys) && xs != [] && ys != [] && xs[0] == ys[0]
    ensures multiset(xs[1..]) == multiset(ys[1..])
  {
    assert xs == [xs[0]] + xs[1..] && ys == [ys[0]] + ys[1..];
    assert multiset(xs[1..]) == multiset(xs) - multiset{xs[0]};
    assert multiset(ys[1..]) == multiset(ys) - multiset{ys[0]};
  }

  lemma SameLength<T>(xs: seq<T>, ys: seq<T>)
    requires multiset(xs) == multiset(ys)
    ensures |xs| == |ys|
  {
    assert |multiset(xs)| == |xs|;
    assert |multiset(ys)| == |ys|;
  }

  /** Having distinct names does not depend on the order. */
  lemma {:induction false} DistinctNamesPermuted<T>(xs: seq<Named<T>>, ys: seq<Named<T>>)
    requires multiset(xs) == multiset(ys) && DistinctNames(xs)
    ensures DistinctNames(ys)
  {
    forall i, j | 0 <= i < j < |ys| ensures ys[i].name != ys[j].name {
      if ys[i] == ys[j] {
        RepeatedTwice(ys, i, j);
        OccursOnce(xs, ys[i]);
      } else {
        MemberOfBoth(xs, ys, ys[i]);
        MemberOfBoth(xs, ys, ys[j]);
        var a :| 0 <= a < |xs| && xs[a] == ys[i];
        var b :| 0 <= b < |xs| && xs[b] == ys[j];
      }
    }
  }

  lemma RepeatedTwice<T>(ys: seq<T>, i: nat, j: nat)
    requires i < j < |ys| && ys[i] == ys[j]
    ensures multiset(ys)[ys[i]] >= 2
  {
    assert ys == ys[..j] + [ys[j]] + ys[j + 1..];
    assert ys[i] in ys[..j];
  }

  lemma {:induction false} OccursOnce<T>(xs: seq<Named<T>>, x: Named<T>)
    requires DistinctNames(xs)
    ensures multiset(xs)[x] <= 1
  {
    if xs != [] {
      assert xs == [xs[0]] + xs[1..];
      OccursOnce(xs[1..], x);
      if x == xs[0] {
        assert x !in xs[1..];
      }
    }
  }

  /** Any two sorts of any two orders of the same distinctly named items agree. */
  lemma SortsAgree<T>(xs: seq<Named<T>>, ys: seq<Named<T>>, sortedX: seq<Named<T>>, sortedY: seq<Named<T>>)
    requires multiset(xs) == multiset(ys) && DistinctNames(xs)
    requires SortedPermutation(sortedX, xs) && SortedPermutation(sortedY, ys)
    ensures sortedX == sortedY
  {
    DistinctNamesPermuted(xs, sortedX);
    SortedUnique(sortedX, sortedY);
  }
}
