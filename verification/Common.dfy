/** Data types and sequence facts shared by every component. */
module Common {

  datatype Option<+T> = None | Some(value: T)

  /** A Go pair (value, err): one of the two is meaningful. */
  datatype Result<+T, +E> = Success(value: T) | Failure(error: E)

  function Lookup<K, V>(m: map<K, V>, k: K): Option<V> {
    if k in m then Some(m[k]) else None
  }

  /** A JSON merge patch from before to wanted, applied to a map that may have changed since. */
  function MergeMap<K, V(==)>(current: map<K, V>, before: map<K, V>, wanted: map<K, V>): map<K, V> {
    map k | k in current.Keys + wanted.Keys && MergedKey(current, before, wanted, k).Some?
      :: MergedKey(current, before, wanted, k).value
  }

  /** The patch holds the keys that differ; the others stay as they are now. */
  function MergedKey<K, V(==)>(current: map<K, V>, before: map<K, V>, wanted: map<K, V>, k: K): Option<V> {
    if Lookup(before, k) == Lookup(wanted, k) then Lookup(current, k) else Lookup(wanted, k)
  }

  /** The patched map is the wanted one if and only if the keys that the patch leaves out are as wanted already. */
  lemma MergedIsWantedIff<K, V>(current: map<K, V>, before: map<K, V>, wanted: map<K, V>)
    ensures MergeMap(current, before, wanted) == wanted
            <==> forall k :: Lookup(before, k) == Lookup(wanted, k) ==> Lookup(current, k) == Lookup(wanted, k)
  {
    forall k ensures Lookup(MergeMap(current, before, wanted), k) == MergedKey(current, before, wanted, k) {
    }
    if forall k :: Lookup(before, k) == Lookup(wanted, k) ==> Lookup(current, k) == Lookup(wanted, k) {
      forall k ensures Lookup(MergeMap(current, before, wanted), k) == Lookup(wanted, k) {
      }
      MapsEqual(MergeMap(current, before, wanted), wanted);
    }
  }

  lemma MapsEqual<K, V>(a: map<K, V>, b: map<K, V>)
    requires forall k :: Lookup(a, k) == Lookup(b, k)
    ensures a == b
  {
    forall k ensures k in a <==> k in b {
      assert Lookup(a, k) == Lookup(b, k);
    }
    forall k | k in a ensures a[k] == b[k] {
      assert Lookup(a, k) == Lookup(b, k);
    }
  }

  predicate Distinct<T(==)>(xs: seq<T>) {
    forall i, j :: 0 <= i < j < |xs| ==> xs[i] != xs[j]
  }

  /** xs lists the elements of s, each once, in some order: the only thing known about ranging over a Go map. */
  ghost predicate Enumerates<T>(xs: seq<T>, s: set<T>) {
    && (forall i, j :: 0 <= i < j < |xs| ==> xs[i] != xs[j])
    && (forall i :: 0 <= i < |xs| ==> xs[i] in s)
    && (forall x :: x in s ==> x in xs)
  }

  function Flatten<T>(xss: seq<seq<T>>): (xs: seq<T>) {
    if xss == [] then [] else Flatten(xss[..|xss| - 1]) + xss[|xss| - 1]
  }

  lemma FlattenAppend<T>(xss: seq<seq<T>>, xs: seq<T>)
    ensures Flatten(xss + [xs]) == Flatten(xss) + xs
  {
    assert (xss + [xs])[..|xss|] == xss;
  }

  lemma ConcatAssociative<T>(a: seq<T>, b: seq<T>, c: seq<T>)
    ensures (a + b) + c == a + (b + c)
  {
  }

  /** A subset with as many elements is the whole set. */
  lemma SubsetOfEqualSize<T>(a: set<T>, b: set<T>)
    requires a <= b && |b| <= |a|
    ensures a == b
  {
    if a != b {
      var x :| x in b && x !in a;
      SubsetIsNoLarger(a, b - {x});
    }
  }

  lemma {:induction false} SubsetIsNoLarger<T>(a: set<T>, b: set<T>)
    requires a <= b
    ensures |a| <= |b|
  {
    if a != {} {
      var x :| x in a;
      SubsetIsNoLarger(a - {x}, b - {x});
    }
  }

  /** A set with more elements has one the other lacks. */
  lemma LargerHasExtra<T>(a: set<T>, b: set<T>)
    requires |a| > |b|
    ensures exists x :: x in a && x !in b
  {
    if forall x :: x in a ==> x in b {
      SubsetIsNoLarger(a, b);
    }
  }
}
