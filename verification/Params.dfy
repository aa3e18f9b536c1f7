/** Key-value lists and their text form. */
module Params {
  import opened Common
  import opened Sorting

  datatype Pair = Pair(key: string, value: string)

  const INDENT := "    "

  function RenderLine(p: Pair): string {
    INDENT + (p.key + (INDENT + p.value))
  }

  function Render(ps: seq<Pair>): string {
    if ps == [] then "" else RenderLine(ps[0]) + ("\n" + Render(ps[1..]))
  }

  lemma {:induction false} RenderConcat(ps: seq<Pair>, qs: seq<Pair>)
    ensures Render(ps + qs) == Render(ps) + Render(qs)
  {
    if ps == [] {
      assert ps + qs == qs;
    } else {
      assert (ps + qs)[1..] == ps[1..] + qs && (ps + qs)[0] == ps[0];
      RenderConcat(ps[1..], qs);
      ConcatAssociative("\n", Render(ps[1..]), Render(qs));
      ConcatAssociative(RenderLine(ps[0]), "\n" + Render(ps[1..]), Render(qs));
    }
  }

  lemma RenderOne(p: Pair)
    ensures Render([p]) == RenderLine(p) + "\n"
  {
    assert [p][1..] == [];
    assert "\n" + Render([]) == "\n";
  }

  lemma RenderSnoc(ps: seq<Pair>, p: Pair)
    ensures Render(ps + [p]) == Render(ps) + RenderLine(p) + "\n"
  {
    RenderConcat(ps, [p]);
    RenderOne(p);
    ConcatAssociative(Render(ps), RenderLine(p), "\n");
  }

  type Transform = (string, string) -> Pair

  /** The pairs a string map contributes, given its keys in order. */
  function MapPairs(ks: seq<string>, m: map<string, string>, f: Option<Transform>): seq<Pair>
    requires forall k :: k in ks ==> k in m
  {
    seq(|ks|, i requires 0 <= i < |ks| => if f.None? then Pair(ks[i], m[ks[i]]) else f.value(ks[i], m[ks[i]]))
  }

  /** Each key contributes itself with its value, or what the transformation makes of the two. */
  lemma MapPairsAre(ks: seq<string>, m: map<string, string>, f: Option<Transform>)
    requires forall k :: k in ks ==> k in m
    ensures |MapPairs(ks, m, f)| == |ks|
    ensures forall i :: 0 <= i < |ks| ==>
                          var p := MapPairs(ks, m, f)[i];
                          if f.Some? then p == f.value(ks[i], m[ks[i]]) else p.key == ks[i] && p.value == m[ks[i]]
  {
  }

  /** ks lists the keys of m in strictly increasing order. */
  ghost predicate SortedKeys(ks: seq<string>, keys: set<string>) {
    && (forall i, j :: 0 <= i < j < |ks| ==> LessEq(ks[i], ks[j]) && ks[i] != ks[j])
    && (forall k :: k in ks <==> k in keys)
  }

  lemma KeysEmptyIff(ks: seq<string>, keys: set<string>)
    requires SortedKeys(ks, keys)
    ensures ks == [] <==> keys == {}
  {
    if ks != [] {
      assert ks[0] in keys;
    }
    if keys != {} {
      var k :| k in keys;
      assert k in ks;
    }
  }

  /** In alphabetical order, that is. */
  lemma SortedKeysAlphabetical(ks: seq<string>, keys: set<string>)
    requires SortedKeys(ks, keys)
    ensures forall i, j :: 0 <= i < j < |ks| ==> Alphabetical(ks[i], ks[j])
  {
    forall i, j | 0 <= i < j < |ks| ensures Alphabetical(ks[i], ks[j]) {
      LessEqIffAlphabetical(ks[i], ks[j]);
    }
  }

  /** Only one list does, so the order in which Go ranges over the map cannot show. */
  lemma {:induction false} SortedKeysUnique(xs: seq<string>, ys: seq<string>, keys: set<string>)
    requires SortedKeys(xs, keys) && SortedKeys(ys, keys)
    ensures xs == ys
    decreases keys
  {
    KeysEmptyIff(xs, keys);
    KeysEmptyIff(ys, keys);
    if xs != [] {
      assert xs[0] in keys && ys[0] in keys;
      LessEqTotal(xs[0], ys[0]);
      assert xs[0] == ys[0];
      assert xs == [xs[0]] + xs[1..] && ys == [ys[0]] + ys[1..];
      SortedKeysUnique(xs[1..], ys[1..], keys - {xs[0]});
    }
  }

  class KVs {
    var keys: seq<string>
    var values: seq<string>

    ghost predicate Valid()
      reads this
    {
      |keys| == |values|
    }

    ghost function Pairs(): seq<Pair>
      reads this
      requires Valid()
    {
      seq(|keys|, i requires 0 <= i < |keys| && |keys| == |values| reads this => Pair(keys[i], values[i]))
    }

    constructor ()
      ensures Valid() && Pairs() == []
    {
      keys, values := [], [];
    }

    method Insert(key: string, value: string)
      requires Valid()
      modifies this
      ensures Valid() && Pairs() == old(Pairs()) + [Pair(key, value)]
    {
      keys := keys + [key];
      values := values + [value];
    }

    method InsertStringMap(m: map<string, string>, f: Option<Transform>)
      requires Valid()
      modifies this
      ensures Valid()
      ensures forall ks :: SortedKeys(ks, m.Keys) ==> Pairs() == old(Pairs()) + MapPairs(ks, m, f)
      ensures exists ks :: SortedKeys(ks, m.Keys)
    {
      var ks := KeysInOrder(m);
      forall other | SortedKeys(other, m.Keys) ensures other == ks {
        SortedKeysUnique(other, ks, m.Keys);
      }
      for i := 0 to |ks|
        invariant Valid() && Pairs() == old(Pairs()) + MapPairs(ks, m, f)[..i]
      {
        var k, v := ks[i], m[ks[i]];
        if f.Some? {
          var p := f.value(k, v);
          k, v := p.key, p.value;
        }
        Insert(k, v);
        assert MapPairs(ks, m, f)[i] == Pair(k, v);
        assert MapPairs(ks, m, f)[..i + 1] == MapPairs(ks, m, f)[..i] + [Pair(k, v)];
      }
      assert MapPairs(ks, m, f)[..|ks|] == MapPairs(ks, m, f);
    }

    method Merge(tail: KVs)
      requires Valid() && tail.Valid()
      modifies this
      ensures Valid() && Pairs() == old(Pairs()) + old(tail.Pairs())
    {
      keys := keys + tail.keys;
      values := values + tail.values;
    }

    method String() returns (text: string)
      requires Valid()
      ensures text == Render(Pairs())
    {
      text := "";
      ghost var ps := Pairs();
      for i := 0 to |keys|
        invariant text == Render(ps[..i])
      {
        RenderSnoc(ps[..i], ps[i]);
        assert ps[..i + 1] == ps[..i] + [ps[i]];
        text := text + (INDENT + (keys[i] + (INDENT + values[i]))) + "\n";
      }
      assert ps[..|keys|] == ps;
    }
  }

  /** Collects the keys in any order, then sorts them. */
  method KeysInOrder(m: map<string, string>) returns (ks: seq<string>)
    ensures SortedKeys(ks, m.Keys)
  {
    var unsorted: seq<Named<string>> := [];
    var todo := m.Keys;
    while todo != {}
      invariant todo <= m.Keys
      invariant DistinctNames(unsorted)
      invariant forall i :: 0 <= i < |unsorted| ==>
                              unsorted[i].name in m.Keys - todo && unsorted[i].spec == m[unsorted[i].name]
      invariant forall k :: k in m.Keys - todo ==> Named(k, m[k]) in unsorted
      decreases todo
    {
      var k :| k in todo;
      unsorted := unsorted + [Named(k, m[k])];
      todo := todo - {k};
    }
    var sorted := Sort(unsorted);
    DistinctNamesPermuted(unsorted, sorted);
    ks := seq(|sorted|, i requires 0 <= i < |sorted| => sorted[i].name);
    forall k | k in ks ensures k in m.Keys {
      var i :| 0 <= i < |ks| && ks[i] == k;
      MemberOfBoth(sorted, unsorted, sorted[i]);
    }
    forall k | k in m.Keys ensures k in ks {
      MemberOfBoth(sorted, unsorted, Named(k, m[k]));
      var i :| 0 <= i < |sorted| && sorted[i] == Named(k, m[k]);
      assert ks[i] == k;
    }
  }

  // ---------- reading the text back ----------

  function IndexOf(s: string, c: char): (i: nat)
    ensures i <= |s|
    ensures forall j :: 0 <= j < i ==> s[j] != c
    ensures i < |s| ==> s[i] == c
  {
    if s == [] || s[0] == c then 0 else 1 + IndexOf(s[1..], c)
  }

  function ParseLine(line: string): Option<Pair> {
    if !(INDENT <= line) then None
    else
      var rest := line[|INDENT|..];
      var k := IndexOf(rest, ' ');
      if !(INDENT <= rest[k..]) then None
      else Some(Pair(rest[..k], rest[k + |INDENT|..]))
  }

  function Parse(text: string): Option<seq<Pair>>
    decreases |text|
  {
    if text == "" then Some([])
    else
      var nl := IndexOf(text, '\n');
      if nl == |text| then None
      else
        var first := ParseLine(text[..nl]);
        var others := Parse(text[nl + 1..]);
        if first.None? || others.None? then None else Some([first.value] + others.value)
  }

  /** Keys hold no space, and neither keys nor values a newline. */
  predicate CleanPair(p: Pair) {
    ' ' !in p.key && '\n' !in p.key && '\n' !in p.value
  }

  predicate Clean(ps: seq<Pair>) {
    forall i :: 0 <= i < |ps| ==> CleanPair(ps[i])
  }

  lemma {:induction false} IndexOfSplit(a: string, c: char, b: string)
    requires c !in a
    ensures IndexOf(a + ([c] + b), c) == |a|
  {
    if a == [] {
      assert a + ([c] + b) == [c] + b;
    } else {
      assert (a + ([c] + b))[1..] == a[1..] + ([c] + b);
      IndexOfSplit(a[1..], c, b);
    }
  }

  lemma ParseLineRendered(p: Pair)
    requires CleanPair(p)
    ensures ParseLine(RenderLine(p)) == Some(p)
  {
    var rest := p.key + (INDENT + p.value);
    assert RenderLine(p)[|INDENT|..] == rest;
    assert INDENT + p.value == [' '] + ("   " + p.value);
    IndexOfSplit(p.key, ' ', "   " + p.value);
    assert rest[|p.key|..] == INDENT + p.value;
    assert rest[|p.key| + |INDENT|..] == p.value;
    assert rest[..|p.key|] == p.key;
  }

  lemma PrefixSplit(prefix: string, s: string)
    requires prefix <= s
    ensures s == prefix + s[|prefix|..]
  {
  }

  lemma KeyThenValue(rest: string)
    requires INDENT <= rest[IndexOf(rest, ' ')..]
    ensures var k := IndexOf(rest, ' ');
            rest == rest[..k] + (INDENT + rest[k + |INDENT|..]) && ' ' !in rest[..k]
  {
    var k := IndexOf(rest, ' ');
    PrefixSplit(INDENT, rest[k..]);
    assert rest[k..][|INDENT|..] == rest[k + |INDENT|..];
    assert rest == rest[..k] + rest[k..];
  }

  lemma ParsedLineRenders(line: string)
    requires ParseLine(line).Some? && '\n' !in line
    ensures RenderLine(ParseLine(line).value) == line && CleanPair(ParseLine(line).value)
  {
    PrefixSplit(INDENT, line);
    KeyThenValue(line[|INDENT|..]);
  }

  lemma ParseCons(line: string, tail: string)
    requires '\n' !in line
    ensures Parse(line + ("\n" + tail))
            == if ParseLine(line).None? || Parse(tail).None? then None
               else Some([ParseLine(line).value] + Parse(tail).value)
  {
    var text := line + ("\n" + tail);
    assert "\n" == ['\n'];
    IndexOfSplit(line, '\n', tail);
    assert text[..|line|] == line && text[|line| + 1..] == tail;
  }

  lemma ParseFirst(p: Pair, tail: string, ps: seq<Pair>)
    requires CleanPair(p) && Parse(tail) == Some(ps)
    ensures Parse(RenderLine(p) + ("\n" + tail)) == Some([p] + ps)
  {
    ParseCons(RenderLine(p), tail);
    ParseLineRendered(p);
  }

  lemma {:induction false} ParseRendered(ps: seq<Pair>)
    requires Clean(ps)
    ensures Parse(Render(ps)) == Some(ps)
  {
    if ps != [] {
      ParseRendered(ps[1..]);
      ParseFirst(ps[0], Render(ps[1..]), ps[1..]);
      assert ps == [ps[0]] + ps[1..];
    }
  }

  lemma SplitAt(text: string, nl: nat)
    requires nl < |text| && text[nl] == '\n'
    ensures text == text[..nl] + ("\n" + text[nl + 1..])
  {
  }

  lemma RenderFirst(line: string, tail: string, ps: seq<Pair>)
    requires ParseLine(line).Some? && '\n' !in line && Render(ps) == tail && Clean(ps)
    ensures var all := [ParseLine(line).value] + ps;
            Render(all) == line + ("\n" + tail) && Clean(all)
  {
    ParsedLineRenders(line);
    assert ([ParseLine(line).value] + ps)[1..] == ps;
  }

  lemma {:induction false} ParsedRenders(text: string)
    requires Parse(text).Some?
    ensures Render(Parse(text).value) == text && Clean(Parse(text).value)
    decreases |text|
  {
    if text != "" {
      var nl := IndexOf(text, '\n');
      var line, tail := text[..nl], text[nl + 1..];
      ParsedRenders(tail);
      RenderFirst(line, tail, Parse(tail).value);
      SplitAt(text, nl);
    }
  }

  /** The text can be read back to the same pairs in order exactly when every pair is clean. */
  lemma RoundTripIff(ps: seq<Pair>)
    ensures Parse(Render(ps)) == Some(ps) <==> Clean(ps)
  {
    if Clean(ps) {
      ParseRendered(ps);
    }
    if Parse(Render(ps)) == Some(ps) {
      ParsedRenders(Render(ps));
    }
  }

  /** Every text that can be read is the text of what was read: reading and rendering are inverse to each other. */
  lemma ParseIff(text: string, ps: seq<Pair>)
    ensures Parse(text) == Some(ps) <==> Clean(ps) && text == Render(ps)
  {
    if Parse(text) == Some(ps) {
      ParsedRenders(text);
    }
    if Clean(ps) {
      ParseRendered(ps);
    }
  }
}
