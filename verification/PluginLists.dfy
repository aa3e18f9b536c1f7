/** The item lists and their Load methods. */
module PluginLists {
  import opened Common
  import opened Sorting
  import opened Sections
  import opened ConfigRender

  class InputList {
    var items: seq<Named<InputSpec>>

    constructor (items: seq<Named<InputSpec>>)
      ensures this.items == items
    {
      this.items := items;
    }

    /** Sorts the list in place, then writes the sections of every item in order. */
    method Load() returns (r: Result<string, string>)
      modifies this
      ensures SortedPermutation(items, old(items)) && InNameOrder(items)
      ensures r == BlocksText(InputBlocks(items))
    {
      items := Sort(items);
      r := Success("");
      FinishEmpty(InputBlocks(items));
      for n := 0 to |items|
        invariant SortedPermutation(items, old(items)) && InNameOrder(items)
        invariant r.Success? && Finish(r.value, InputBlocks(items[n..])) == BlocksText(InputBlocks(items))
      {
        var item := items[n];
        FinishStep(r.value, ItemBlocks(item), InputBlocks(items[n + 1..]));
        assert items[n..][1..] == items[n + 1..];
        r := LoadItem(r.value, item);
        if r.Failure? {
          return;
        }
      }
      FinishNothing(r.value);
    }

    static function ItemBlocks(item: Named<InputSpec>): seq<Block> {
      RowBlocks(InputKind(item.spec.alias), item.spec.Fields())
    }

    static method LoadItem(buf: string, item: Named<InputSpec>) returns (r: Result<string, string>)
      ensures r == Finish(buf, ItemBlocks(item))
    {
      var fields := item.spec.Fields();
      ghost var kind := InputKind(item.spec.alias);
      var text := buf;
      for i := 0 to |fields|
        invariant Finish(text, RowBlocks(kind, fields[i..])) == Finish(buf, RowBlocks(kind, fields))
      {
        var out, err := MergeInput(text, item.spec.alias, fields[i]);
        RowStep(text, out, err, kind, fields[i..]);
        assert fields[i..][1..] == fields[i + 1..];
        if err.Some? {
          return Failure(err.value);
        }
        text := out;
      }
      FinishNothing(text);
      return Success(text);
    }
  }

  class FilterList {
    var items: seq<Named<FilterSpec>>

    constructor (items: seq<Named<FilterSpec>>)
      ensures this.items == items
    {
      this.items := items;
    }

    /** Sorts the list in place, then writes the sections of every item in order. */
    method Load() returns (r: Result<string, string>)
      modifies this
      ensures SortedPermutation(items, old(items)) && InNameOrder(items)
      ensures r == BlocksText(FilterBlocks(items))
    {
      items := Sort(items);
      r := Success("");
      FinishEmpty(FilterBlocks(items));
      for n := 0 to |items|
        invariant SortedPermutation(items, old(items)) && InNameOrder(items)
        invariant r.Success? && Finish(r.value, FilterBlocks(items[n..])) == BlocksText(FilterBlocks(items))
      {
        var item := items[n];
        FinishStep(r.value, ItemBlocks(item), FilterBlocks(items[n + 1..]));
        assert items[n..][1..] == items[n + 1..];
        r := LoadItem(r.value, item);
        if r.Failure? {
          return;
        }
      }
      FinishNothing(r.value);
    }

    static function ItemBlocks(item: Named<FilterSpec>): seq<Block> {
      FilterItemBlocks(FilterKindOf(item.spec), item.spec.items)
    }

    static method LoadItem(buf: string, item: Named<FilterSpec>) returns (r: Result<string, string>)
      ensures r == Finish(buf, ItemBlocks(item))
    {
      var elems := item.spec.items;
      ghost var kind := FilterKindOf(item.spec);
      r := Success(buf);
      for e := 0 to |elems|
        invariant r.Success? && Finish(r.value, FilterItemBlocks(kind, elems[e..])) == Finish(buf, ItemBlocks(item))
      {
        FinishStep(r.value, RowBlocks(kind, elems[e].Fields()), FilterItemBlocks(kind, elems[e + 1..]));
        assert elems[e..][1..] == elems[e + 1..];
        r := LoadElem(r.value, item.spec, elems[e]);
        if r.Failure? {
          return;
        }
      }
      FinishNothing(r.value);
    }

    static method LoadElem(buf: string, spec: FilterSpec, elem: FilterItem) returns (r: Result<string, string>)
      ensures r == Finish(buf, RowBlocks(FilterKindOf(spec), elem.Fields()))
    {
      var fields := elem.Fields();
      ghost var kind := FilterKindOf(spec);
      var text := buf;
      for i := 0 to |fields|
        invariant Finish(text, RowBlocks(kind, fields[i..])) == Finish(buf, RowBlocks(kind, fields))
      {
        var out, err := MergeFilter(text, spec.matchTag, spec.matchRegex, fields[i]);
        RowStep(text, out, err, kind, fields[i..]);
        assert fields[i..][1..] == fields[i + 1..];
        if err.Some? {
          return Failure(err.value);
        }
        text := out;
      }
      FinishNothing(text);
      return Success(text);
    }
  }

  class OutputList {
    var items: seq<Named<OutputSpec>>

    constructor (items: seq<Named<OutputSpec>>)
      ensures this.items == items
    {
      this.items := items;
    }

    /** Sorts the list in place, then writes the sections of every item in order. */
    method Load() returns (r: Result<string, string>)
      modifies this
      ensures SortedPermutation(items, old(items)) && InNameOrder(items)
      ensures r == BlocksText(OutputBlocks(items))
    {
      items := Sort(items);
      r := Success("");
      FinishEmpty(OutputBlocks(items));
      for n := 0 to |items|
        invariant SortedPermutation(items, old(items)) && InNameOrder(items)
        invariant r.Success? && Finish(r.value, OutputBlocks(items[n..])) == BlocksText(OutputBlocks(items))
      {
        var item := items[n];
        FinishStep(r.value, ItemBlocks(item), OutputBlocks(items[n + 1..]));
        assert items[n..][1..] == items[n + 1..];
        r := LoadItem(r.value, item);
        if r.Failure? {
          return;
        }
      }
      FinishNothing(r.value);
    }

    static function ItemBlocks(item: Named<OutputSpec>): seq<Block> {
      RowBlocks(OutputKindOf(item.spec), item.spec.Fields())
    }

    static method LoadItem(buf: string, item: Named<OutputSpec>) returns (r: Result<string, string>)
      ensures r == Finish(buf, ItemBlocks(item))
    {
      var fields := item.spec.Fields();
      ghost var kind := OutputKindOf(item.spec);
      var text := buf;
      RowBlocksSkip(kind, fields);
      RowBlocksSkip(kind, fields[1..]);
      assert fields[1..][1..] == fields[2..];
      for i := 2 to |fields|
        invariant Finish(text, RowBlocks(kind, fields[i..])) == Finish(buf, RowBlocks(kind, fields))
      {
        var out, err := MergeOutput(text, item.spec, fields[i]);
        RowStep(text, out, err, kind, fields[i..]);
        assert fields[i..][1..] == fields[i + 1..];
        if err.Some? {
          return Failure(err.value);
        }
        text := out;
      }
      FinishNothing(text);
      return Success(text);
    }
  }

  class ParserList {
    var items: seq<Named<ParserSpec>>

    constructor (items: seq<Named<ParserSpec>>)
      ensures this.items == items
    {
      this.items := items;
    }

    /** Sorts the list in place, then writes the sections of every item in order. */
    method Load() returns (r: Result<string, string>)
      modifies this
      ensures SortedPermutation(items, old(items)) && InNameOrder(items)
      ensures r == BlocksText(ParserBlocks(items))
    {
      items := Sort(items);
      r := Success("");
      FinishEmpty(ParserBlocks(items));
      for n := 0 to |items|
        invariant SortedPermutation(items, old(items)) && InNameOrder(items)
        invariant r.Success? && Finish(r.value, ParserBlocks(items[n..])) == BlocksText(ParserBlocks(items))
      {
        var item := items[n];
        FinishStep(r.value, ItemBlocks(item), ParserBlocks(items[n + 1..]));
        assert items[n..][1..] == items[n + 1..];
        r := LoadItem(r.value, item);
        if r.Failure? {
          return;
        }
      }
      FinishNothing(r.value);
    }

    static function ItemBlocks(item: Named<ParserSpec>): seq<Block> {
      RowBlocks(ParserKind(item.name, item.spec.decoders), item.spec.Fields())
    }

    static method LoadItem(buf: string, item: Named<ParserSpec>) returns (r: Result<string, string>)
      ensures r == Finish(buf, ItemBlocks(item))
    {
      r := LoadFields(buf, item.name, item.spec.decoders, item.spec.Fields());
    }

    /** All fields but the last, which holds the decoders. */
    static method LoadFields(buf: string, name: string, decoders: seq<Decoder>, fields: seq<Field>)
      returns (r: Result<string, string>)
      requires fields != [] && fields[|fields| - 1] == NotAPlugin
      ensures r == Finish(buf, RowBlocks(ParserKind(name, decoders), fields))
    {
      ghost var kind := ParserKind(name, decoders);
      var text := buf;
      for i := 0 to |fields| - 1
        invariant Finish(text, RowBlocks(kind, fields[i..])) == Finish(buf, RowBlocks(kind, fields))
      {
        var out, err := MergeParser(text, name, decoders, fields[i]);
        RowStep(text, out, err, kind, fields[i..]);
        assert fields[i..][1..] == fields[i + 1..];
        if err.Some? {
          return Failure(err.value);
        }
        text := out;
      }
      assert fields[|fields| - 1..] == [NotAPlugin];
      RowBlocksNone(kind);
      FinishNothing(text);
      return Success(text);
    }
  }

  lemma RowBlocksNone(kind: Kind)
    ensures RowBlocks(kind, [NotAPlugin]) == []
  {
    RowBlocksSkip(kind, [NotAPlugin]);
  }

  /** Fields that are no plugins add nothing, so the loops may leave them out. */
  lemma RowBlocksSkip(kind: Kind, fields: seq<Field>)
    requires fields != [] && !fields[0].Plugged?
    ensures RowBlocks(kind, fields) == RowBlocks(kind, fields[1..])
  {
  }
}
