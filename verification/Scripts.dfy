/** The Lua scripts of a configuration and the data of the Secret that carries it. */
module Scripts {
  import opened Common
  import opened Sorting
  import opened ConfigRender
  import opened PluginLists
  import opened SecretStore

  type Script = Named<string>

  /** The scripts of one filter's elements in order, or the first load error. */
  function ElemScripts(elems: seq<FilterItem>): Result<seq<Script>, string> {
    if elems == [] then Success([])
    else if elems[0].lua.None? then ElemScripts(elems[1..])
    else
      var script := elems[0].lua.value.1;
      if script.content.Failure? then Failure(script.content.error)
      else
        var others := ElemScripts(elems[1..]);
        if others.Failure? then others else Success([Named(script.key, script.content.value)] + others.value)
  }

  function FilterScripts(items: seq<Named<FilterSpec>>): Result<seq<Script>, string> {
    if items == [] then Success([])
    else
      var first := ElemScripts(items[0].spec.items);
      if first.Failure? then first
      else
        var others := FilterScripts(items[1..]);
        if others.Failure? then others else Success(first.value + others.value)
  }

  /** What two lists of scripts make together: the first error wins. */
  function Both(xs: Result<seq<Script>, string>, ys: Result<seq<Script>, string>): Result<seq<Script>, string> {
    if xs.Failure? then xs else if ys.Failure? then ys else Success(xs.value + ys.value)
  }

  lemma BothAssociative(xs: Result<seq<Script>, string>, ys: Result<seq<Script>, string>,
                        zs: Result<seq<Script>, string>)
    ensures Both(Both(xs, ys), zs) == Both(xs, Both(ys, zs))
  {
    if xs.Success? && ys.Success? && zs.Success? {
      ConcatAssociative(xs.value, ys.value, zs.value);
    }
  }

  lemma BothNothing(xs: Result<seq<Script>, string>)
    ensures Both(Success([]), xs) == xs == Both(xs, Success([]))
  {
    assert xs.Success? ==> [] + xs.value == xs.value == xs.value + [];
  }

  /** An element without a Lua plugin gives nothing, one with it its script under its key, or the load error. */
  lemma ElemScript(e: FilterItem)
    ensures ElemScripts([e])
            == if e.lua.None? then Success([])
               else if e.lua.value.1.content.Failure? then Failure(e.lua.value.1.content.error)
               else Success([Named(e.lua.value.1.key, e.lua.value.1.content.value)])
  {
    assert [e][1..] == [];
    assert ElemScripts([]) == Success([]);
    if e.lua.Some? && e.lua.value.1.content.Success? {
      var x := Named(e.lua.value.1.key, e.lua.value.1.content.value);
      assert [x] + [] == [x];
    }
  }

  lemma ElemScriptsFirst(elems: seq<FilterItem>)
    requires elems != []
    ensures ElemScripts(elems) == Both(ElemScripts([elems[0]]), ElemScripts(elems[1..]))
  {
    ElemScript(elems[0]);
    BothNothing(ElemScripts(elems[1..]));
  }

  /** Elements are gone through in order; the first error wins. */
  lemma {:induction false} ElemScriptsInOrder(xs: seq<FilterItem>, ys: seq<FilterItem>)
    ensures ElemScripts(xs + ys) == Both(ElemScripts(xs), ElemScripts(ys))
  {
    if xs == [] {
      assert xs + ys == ys;
      BothNothing(ElemScripts(ys));
    } else {
      assert (xs + ys)[1..] == xs[1..] + ys && (xs + ys)[0] == xs[0];
      ElemScriptsFirst(xs + ys);
      ElemScriptsFirst(xs);
      ElemScriptsInOrder(xs[1..], ys);
      BothAssociative(ElemScripts([xs[0]]), ElemScripts(xs[1..]), ElemScripts(ys));
    }
  }

  lemma FilterScriptsOne(item: Named<FilterSpec>)
    ensures FilterScripts([item]) == ElemScripts(item.spec.items)
  {
    assert [item][1..] == [];
    assert FilterScripts([]) == Success([]);
    BothNothing(ElemScripts(item.spec.items));
  }

  /** So are filters, each with its elements. */
  lemma {:induction false} FilterScriptsInOrder(xs: seq<Named<FilterSpec>>, ys: seq<Named<FilterSpec>>)
    ensures FilterScripts(xs + ys) == Both(FilterScripts(xs), FilterScripts(ys))
  {
    if xs == [] {
      assert xs + ys == ys;
      BothNothing(FilterScripts(ys));
    } else {
      assert (xs + ys)[1..] == xs[1..] + ys && (xs + ys)[0] == xs[0];
      FilterScriptsInOrder(xs[1..], ys);
      BothAssociative(ElemScripts(xs[0].spec.items), FilterScripts(xs[1..]), FilterScripts(ys));
    }
  }

  /** The element selects this script, and it could be loaded. */
  predicate Selects(e: FilterItem, x: Script) {
    e.lua.Some? && e.lua.value.1.content.Success? && x == Named(e.lua.value.1.key, e.lua.value.1.content.value)
  }

  lemma {:induction false} ElemScriptsSelected(elems: seq<FilterItem>, x: Script)
    requires ElemScripts(elems).Success?
    ensures x in ElemScripts(elems).value <==> exists i :: 0 <= i < |elems| && Selects(elems[i], x)
  {
    if elems != [] {
      ElemScriptsSelected(elems[1..], x);
      assert forall i :: 0 < i < |elems| ==> elems[i] == elems[1..][i - 1];
    }
  }

  predicate SelectsIn(item: Named<FilterSpec>, x: Script) {
    exists i :: 0 <= i < |item.spec.items| && Selects(item.spec.items[i], x)
  }

  /** The scripts collected are exactly those that some element of some filter selects. */
  lemma {:induction false} ScriptsAreTheSelected(items: seq<Named<FilterSpec>>, x: Script)
    requires FilterScripts(items).Success?
    ensures x in FilterScripts(items).value <==> exists n :: 0 <= n < |items| && SelectsIn(items[n], x)
  {
    if items != [] {
      ElemScriptsSelected(items[0].spec.items, x);
      ScriptsAreTheSelected(items[1..], x);
      assert forall n :: 0 < n < |items| ==> items[n] == items[1..][n - 1];
    }
  }

  /** What is collected so far, continued with the result for the rest. */
  function Collected(sofar: seq<Script>, rest: Result<seq<Script>, string>): Result<seq<Script>, string> {
    if rest.Failure? then rest else Success(sofar + rest.value)
  }

  method CollectElems(sofar: seq<Script>, elems: seq<FilterItem>) returns (r: Result<seq<Script>, string>)
    ensures r == Collected(sofar, ElemScripts(elems))
  {
    var scripts := sofar;
    for i := 0 to |elems|
      invariant Collected(scripts, ElemScripts(elems[i..])) == Collected(sofar, ElemScripts(elems))
    {
      assert elems[i..][1..] == elems[i + 1..];
      if elems[i].lua.Some? {
        var script := elems[i].lua.value.1;
        if script.content.Failure? {
          return Failure(script.content.error);
        }
        var next := [Named(script.key, script.content.value)];
        if ElemScripts(elems[i + 1..]).Success? {
          ConcatAssociative(scripts, next, ElemScripts(elems[i + 1..]).value);
        }
        scripts := scripts + next;
      }
    }
    assert scripts + [] == scripts;
    return Success(scripts);
  }

  method RenderLuaScript(filters: FilterList) returns (r: Result<seq<Script>, string>)
    ensures match FilterScripts(filters.items)
            case Failure(e) => r == Failure(e)
            case Success(scripts) => r.Success? && SortedPermutation(r.value, scripts)
  {
    var scripts: seq<Script> := [];
    var items := filters.items;
    assert FilterScripts(items).Success? ==> [] + FilterScripts(items).value == FilterScripts(items).value;
    for n := 0 to |items|
      invariant Collected(scripts, FilterScripts(items[n..])) == FilterScripts(items)
    {
      assert items[n..][1..] == items[n + 1..];
      var elems := ElemScripts(items[n].spec.items);
      if elems.Success? && FilterScripts(items[n + 1..]).Success? {
        ConcatAssociative(scripts, elems.value, FilterScripts(items[n + 1..]).value);
      }
      var c := CollectElems(scripts, items[n].spec.items);
      if c.Failure? {
        return c;
      }
      scripts := c.value;
    }
    assert scripts + [] == scripts;
    var sorted := Sort(scripts);
    return Success(sorted);
  }

  // ---------- the Secret's data ----------

  const MAIN_KEY := "fluent-bit.conf"
  const PARSERS_KEY := "parsers.conf"

  /** The loop over the sorted scripts: a later script replaces what was under its key. */
  function Overlay(base: Data, scripts: seq<Script>): Data {
    if scripts == [] then base
    else Overlay(base, scripts[..|scripts| - 1])[scripts[|scripts| - 1].name := scripts[|scripts| - 1].spec]
  }

  function SecretData(main: string, parsers: string, scripts: seq<Script>): Data {
    Overlay(map[MAIN_KEY := main, PARSERS_KEY := parsers], scripts)
  }

  predicate NamesScript(scripts: seq<Script>, key: string) {
    exists i :: 0 <= i < |scripts| && scripts[i].name == key
  }

  /** i is the last script under its key. */
  ghost predicate LastOfName(scripts: seq<Script>, i: nat) {
    i < |scripts| && forall j :: i < j < |scripts| ==> scripts[j].name != scripts[i].name
  }

  lemma {:induction false} OverlayKeys(base: Data, scripts: seq<Script>, key: string)
    ensures key in Overlay(base, scripts) <==> key in base || NamesScript(scripts, key)
    ensures key in base && !NamesScript(scripts, key) ==> Overlay(base, scripts)[key] == base[key]
  {
    if scripts != [] {
      var init := scripts[..|scripts| - 1];
      OverlayKeys(base, init, key);
      assert scripts == init + [scripts[|scripts| - 1]];
      assert NamesScript(scripts, key) <==> NamesScript(init, key) || scripts[|scripts| - 1].name == key by {
        if NamesScript(init, key) {
          var i :| 0 <= i < |init| && init[i].name == key;
          assert scripts[i].name == key;
        }
        if scripts[|scripts| - 1].name == key {
          assert NamesScript(scripts, key);
        }
        if NamesScript(scripts, key) {
          var i :| 0 <= i < |scripts| && scripts[i].name == key;
          assert i < |init| ==> init[i].name == key;
        }
      }
    }
  }

  lemma {:induction false} OverlayValue(base: Data, scripts: seq<Script>, i: nat)
    requires LastOfName(scripts, i)
    ensures scripts[i].name in Overlay(base, scripts) && Overlay(base, scripts)[scripts[i].name] == scripts[i].spec
  {
    var n := |scripts| - 1;
    if i < n {
      assert scripts[..n][i] == scripts[i];
      OverlayValue(base, scripts[..n], i);
    }
  }

  lemma {:induction false} LastExists(scripts: seq<Script>, key: string) returns (i: nat)
    requires NamesScript(scripts, key)
    ensures LastOfName(scripts, i) && scripts[i].name == key
  {
    var n := |scripts| - 1;
    if scripts[n].name == key {
      i := n;
    } else {
      var k :| 0 <= k < |scripts| && scripts[k].name == key;
      assert scripts[..n][k].name == key;
      i := LastExists(scripts[..n], key);
      assert scripts[..n][i] == scripts[i];
    }
  }

  /**
   The Secret holds the two configuration files and the selected script keys and nothing else; the
   main configuration survives under its key unless a script claims that key for itself.
   */
  lemma SecretDataKeys(main: string, parsers: string, scripts: seq<Script>)
    ensures forall key :: key in SecretData(main, parsers, scripts)
                          <==> key == "fluent-bit.conf" || key == "parsers.conf" || NamesScript(scripts, key)
    ensures !NamesScript(scripts, "fluent-bit.conf") ==>
              SecretData(main, parsers, scripts)["fluent-bit.conf"] == main
    ensures !NamesScript(scripts, "parsers.conf") ==>
              SecretData(main, parsers, scripts)["parsers.conf"] == parsers
  {
    var base := map[MAIN_KEY := main, PARSERS_KEY := parsers];
    forall key ensures key in SecretData(main, parsers, scripts)
                       <==> key == MAIN_KEY || key == PARSERS_KEY || NamesScript(scripts, key) {
      OverlayKeys(base, scripts, key);
    }
    OverlayKeys(base, scripts, MAIN_KEY);
    OverlayKeys(base, scripts, PARSERS_KEY);
    assert MAIN_KEY != PARSERS_KEY by {
      assert |MAIN_KEY| != |PARSERS_KEY|;
    }
  }

  // ---------- when the data is well determined ----------

  /** Scripts that share a key share their content. */
  ghost predicate NoConflicts(scripts: seq<Script>) {
    forall x, y :: x in scripts && y in scripts && x.name == y.name ==> x == y
  }

  ghost predicate DataDetermined(base: Data, scripts: seq<Script>) {
    forall p, q :: SortedPermutation(p, scripts) && SortedPermutation(q, scripts) ==>
                     Overlay(base, p) == Overlay(base, q)
  }

  lemma OverlaysAgree(base: Data, scripts: seq<Script>, p: seq<Script>, q: seq<Script>)
    requires NoConflicts(scripts) && multiset(p) == multiset(scripts) && multiset(q) == multiset(scripts)
    ensures Overlay(base, p) == Overlay(base, q)
  {
    forall key
      ensures key in Overlay(base, p) <==> key in Overlay(base, q)
      ensures key in Overlay(base, p) ==> Overlay(base, p)[key] == Overlay(base, q)[key]
    {
      OverlayKeys(base, p, key);
      OverlayKeys(base, q, key);
      SameNames(p, q, key);
      if NamesScript(p, key) {
        var i := LastExists(p, key);
        var j := LastExists(q, key);
        OverlayValue(base, p, i);
        OverlayValue(base, q, j);
        MemberOfBoth(p, scripts, p[i]);
        MemberOfBoth(q, scripts, q[j]);
      }
    }
  }

  lemma SameNames(p: seq<Script>, q: seq<Script>, key: string)
    requires multiset(p) == multiset(q)
    ensures NamesScript(p, key) <==> NamesScript(q, key)
  {
    if NamesScript(p, key) {
      var i :| 0 <= i < |p| && p[i].name == key;
      MemberOfBoth(p, q, p[i]);
    }
    if NamesScript(q, key) {
      var i :| 0 <= i < |q| && q[i].name == key;
      MemberOfBoth(p, q, q[i]);
    }
  }

  /** Swapping two scripts of one name keeps the order sorted. */
  lemma SwapKeepsSorted(p: seq<Script>, a: nat, b: nat)
    requires SortedByName(p) && a < b < |p| && p[a].name == p[b].name
    ensures SortedPermutation(p[a := p[b]][b := p[a]], p)
  {
    var q := p[a := p[b]][b := p[a]];
    forall i, j | 0 <= i < j < |q| ensures LessEq(q[i].name, q[j].name) {
      assert q[i].name == p[i].name && q[j].name == p[j].name;
    }
  }

  /**
   The Secret's data does not depend on how the sort breaks ties if and only if no two scripts put
   different contents under one key.
   */
  lemma DataDeterminedIff(base: Data, scripts: seq<Script>)
    ensures DataDetermined(base, scripts) <==> NoConflicts(scripts)
  {
    if NoConflicts(scripts) {
      forall p, q | SortedPermutation(p, scripts) && SortedPermutation(q, scripts)
        ensures Overlay(base, p) == Overlay(base, q)
      {
        OverlaysAgree(base, scripts, p, q);
      }
    } else {
      var x, y :| x in scripts && y in scripts && x.name == y.name && x != y;
      var p := SortExists(scripts);
      MemberOfBoth(p, scripts, x);
      MemberOfBoth(p, scripts, y);
      ConflictShows(base, p, x, y);
    }
  }

  lemma ConflictShows(base: Data, p: seq<Script>, x: Script, y: Script)
    requires SortedByName(p) && x in p && y in p && x.name == y.name && x != y
    ensures exists q :: SortedPermutation(q, p) && Overlay(base, q) != Overlay(base, p)
  {
    assert NamesScript(p, x.name);
    var b := LastExists(p, x.name);
    var other := if p[b] == x then y else x;
    var a :| 0 <= a < |p| && p[a] == other;
    assert a < b;
    SwapKeepsSorted(p, a, b);
    SwapChangesOverlay(base, p, a, b);
  }

  /** Exchanging the last script under its key with an earlier one of other content changes the data. */
  lemma SwapChangesOverlay(base: Data, p: seq<Script>, a: nat, b: nat)
    requires LastOfName(p, b) && a < b && p[a].name == p[b].name && p[a] != p[b]
    ensures Overlay(base, p[a := p[b]][b := p[a]]) != Overlay(base, p)
  {
    var q := p[a := p[b]][b := p[a]];
    assert LastOfName(q, b);
    OverlayValue(base, p, b);
    OverlayValue(base, q, b);
  }
}
