/** String lists as used for finalizers. */
module Finalizers {

  const FLUENT_BIT_FINALIZER := "fluentbit.logging.kubesphere.io"

  /** The list without any occurrence of s, everything else in its old order. */
  function Without(slice: seq<string>, s: string): seq<string> {
    if slice == [] then []
    else Without(slice[..|slice| - 1], s) + if slice[|slice| - 1] == s then [] else [slice[|slice| - 1]]
  }

  method ContainString(slice: seq<string>, s: string) returns (found: bool)
    ensures found <==> s in slice
  {
    for i := 0 to |slice|
      invariant s !in slice[..i]
    {
      if slice[i] == s {
        return true;
      }
    }
    return false;
  }

  method RemoveString(slice: seq<string>, s: string) returns (result: seq<string>)
    ensures result == Without(slice, s)
  {
    result := [];
    for i := 0 to |slice|
      invariant result == Without(slice[..i], s)
    {
      assert slice[..i + 1][..i] == slice[..i];
      if slice[i] == s {
        continue;
      }
      result := result + [slice[i]];
    }
    assert slice[..|slice|] == slice;
  }

  function CountOf(slice: seq<string>, s: string): nat {
    multiset(slice)[s]
  }

  /** Every copy of s is gone, every other string occurs as often as before. */
  lemma {:induction false} WithoutCounts(slice: seq<string>, s: string, t: string)
    ensures CountOf(Without(slice, s), t) == if t == s then 0 else CountOf(slice, t)
  {
    if slice != [] {
      var init, last := slice[..|slice| - 1], slice[|slice| - 1];
      WithoutCounts(init, s, t);
      assert slice == init + [last];
    }
  }

  /** Removal goes through a concatenation, so the order of what stays is kept. */
  lemma {:induction false} WithoutConcat(a: seq<string>, b: seq<string>, s: string)
    ensures Without(a + b, s) == Without(a, s) + Without(b, s)
  {
    if b == [] {
      assert a + b == a;
    } else {
      var init := b[..|b| - 1];
      assert (a + b)[..|a + b| - 1] == a + init;
      WithoutConcat(a, init, s);
    }
  }

  lemma {:induction false} WithoutTwice(slice: seq<string>, s: string)
    ensures Without(Without(slice, s), s) == Without(slice, s)
  {
    if slice != [] {
      var init, last := slice[..|slice| - 1], slice[|slice| - 1];
      WithoutTwice(init, s);
      WithoutConcat(Without(init, s), if last == s then [] else [last], s);
    }
  }

  lemma WithoutAdded(slice: seq<string>, s: string)
    ensures Without(slice + [s], s) == Without(slice, s)
    ensures CountOf(slice + [s], s) == CountOf(slice, s) + 1
  {
    assert (slice + [s])[..|slice|] == slice;
  }

  /** Adding the finalizer and removing it again leaves the others exactly as they were. */
  lemma AddThenRemove(slice: seq<string>, s: string)
    requires s !in slice
    ensures Without(slice + [s], s) == slice
  {
    WithoutAdded(slice, s);
    WithoutAbsent(slice, s);
  }

  lemma {:induction false} WithoutAbsent(slice: seq<string>, s: string)
    requires s !in slice
    ensures Without(slice, s) == slice
  {
    if slice != [] {
      WithoutAbsent(slice[..|slice| - 1], s);
      assert slice == slice[..|slice| - 1] + [slice[|slice| - 1]];
    }
  }
}
