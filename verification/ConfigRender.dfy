/**
 Rendering of inputs, filters, outputs and parsers: the four Load methods sort their list in place and
 walk the fields of every item, RenderMainConfig puts the sections together.
 */
module ConfigRender {
  import opened Common
  import opened Sorting
  import opened Params
  import opened Sections

  /** A plugin of a spec: its name, and what its Params call yields for the secret loader at hand. */
  datatype Plugin = Plugin(name: string, params: Result<seq<Pair>, string>)

  /** A struct field seen through reflection. */
  datatype Field = NotAPlugin | NilPlugin | Plugged(plugin: Plugin)

  function PluginField(p: Option<Plugin>): Field {
    if p.None? then NilPlugin else Plugged(p.value)
  }

  datatype InputSpec = InputSpec(alias: string, dummy: Option<Plugin>, tail: Option<Plugin>, systemd: Option<Plugin>) {
    function Fields(): seq<Field> {
      [NotAPlugin, PluginField(dummy), PluginField(tail), PluginField(systemd)]
    }
  }

  /** A Lua plugin also names a script: a key, and what loading the config map yields for it. */
  datatype LuaScript = LuaScript(key: string, content: Result<string, string>)

  datatype FilterItem = FilterItem(
    grep: Option<Plugin>, recordModifier: Option<Plugin>, kubernetes: Option<Plugin>, modify_: Option<Plugin>,
    nest: Option<Plugin>, parser: Option<Plugin>, lua: Option<(Plugin, LuaScript)>, throttle: Option<Plugin>,
    rewriteTag: Option<Plugin>)
  {
    function Fields(): seq<Field> {
      [PluginField(grep), PluginField(recordModifier), PluginField(kubernetes), PluginField(modify_), PluginField(nest),
       PluginField(parser), if lua.None? then NilPlugin else Plugged(lua.value.0), PluginField(throttle),
       PluginField(rewriteTag)]
    }
  }

  datatype FilterSpec = FilterSpec(matchTag: string, matchRegex: string, items: seq<FilterItem>)

  datatype OutputSpec = OutputSpec(
    matchTag: string, matchRegex: string, alias: string, retryLimit: string,
    elasticsearch: Option<Plugin>, file: Option<Plugin>, forward: Option<Plugin>, http: Option<Plugin>,
    kafka: Option<Plugin>, null_: Option<Plugin>, stdout: Option<Plugin>, tcp: Option<Plugin>, loki: Option<Plugin>,
    syslog: Option<Plugin>, datadog: Option<Plugin>)
  {
    function Fields(): seq<Field> {
      [NotAPlugin, NotAPlugin, NotAPlugin, NotAPlugin,
       PluginField(elasticsearch), PluginField(file), PluginField(forward), PluginField(http), PluginField(kafka),
       PluginField(null_), PluginField(stdout), PluginField(tcp), PluginField(loki), PluginField(syslog),
       PluginField(datadog)]
    }
  }

  datatype Decoder = Decoder(decodeField: string, decodeFieldAs: string)

  datatype ParserSpec = ParserSpec(json: Option<Plugin>, regex: Option<Plugin>, ltsv: Option<Plugin>,
                                   logfmt: Option<Plugin>, decoders: seq<Decoder>)
  {
    function Fields(): seq<Field> {
      [PluginField(json), PluginField(regex), PluginField(ltsv), PluginField(logfmt), NotAPlugin]
    }
  }

  /** What the item around a plugin adds to its section. */
  datatype Kind =
    | InputKind(alias: string)
    | FilterKind(matchTag: string, matchRegex: string)
    | OutputKind(matchTag: string, matchRegex: string, alias: string, retryLimit: string)
    | ParserKind(item: string, decoders: seq<Decoder>)

  function OutputKindOf(spec: OutputSpec): Kind {
    OutputKind(spec.matchTag, spec.matchRegex, spec.alias, spec.retryLimit)
  }

  function Unless(key: string, value: string): seq<Pair> {
    if value == "" then [] else [Pair(key, value)]
  }

  function DecoderPairs(ds: seq<Decoder>): seq<Pair> {
    if ds == [] then []
    else DecoderPairs(ds[..|ds| - 1])
         + Unless("Decode_Field", ds[|ds| - 1].decodeField) + Unless("Decode_Field_As", ds[|ds| - 1].decodeFieldAs)
  }

  /** The section of one plugin under one item. */
  function PluginBlock(kind: Kind, p: Plugin): Block {
    match kind
    case InputKind(alias) =>
      Block("[Input]", [Pair("Name", p.name)] + Unless("Alias", alias), p.params, [])
    case FilterKind(tag, regex) =>
      Block("[Filter]", [Pair("Name", p.name)] + Unless("Match", tag) + Unless("Match_Regex", regex), p.params, [])
    case OutputKind(tag, regex, alias, retry) =>
      Block("[Output]", [Pair("Name", p.name)] + Unless("Match", tag) + Unless("Match_Regex", regex)
                        + Unless("Alias", alias) + Unless("Retry_Limit", retry), p.params, [])
    case ParserKind(item, decoders) =>
      Block("[PARSER]", [Pair("Name", item), Pair("Format", p.name)], p.params, DecoderPairs(decoders))
  }

  function FieldBlocks(kind: Kind, f: Field): seq<Block> {
    if f.Plugged? then [PluginBlock(kind, f.plugin)] else []
  }

  /** One section per plugin that is set, in field order. */
  function RowBlocks(kind: Kind, fields: seq<Field>): seq<Block> {
    if fields == [] then [] else FieldBlocks(kind, fields[0]) + RowBlocks(kind, fields[1..])
  }

  function InputBlocks(items: seq<Named<InputSpec>>): seq<Block> {
    if items == [] then []
    else RowBlocks(InputKind(items[0].spec.alias), items[0].spec.Fields()) + InputBlocks(items[1..])
  }

  function FilterItemBlocks(kind: Kind, elems: seq<FilterItem>): seq<Block> {
    if elems == [] then [] else RowBlocks(kind, elems[0].Fields()) + FilterItemBlocks(kind, elems[1..])
  }

  function FilterKindOf(spec: FilterSpec): Kind {
    FilterKind(spec.matchTag, spec.matchRegex)
  }

  function FilterBlocks(items: seq<Named<FilterSpec>>): seq<Block> {
    if items == [] then []
    else FilterItemBlocks(FilterKindOf(items[0].spec), items[0].spec.items) + FilterBlocks(items[1..])
  }

  function OutputBlocks(items: seq<Named<OutputSpec>>): seq<Block> {
    if items == [] then []
    else RowBlocks(OutputKindOf(items[0].spec), items[0].spec.Fields()) + OutputBlocks(items[1..])
  }

  function ParserBlocks(items: seq<Named<ParserSpec>>): seq<Block> {
    if items == [] then []
    else RowBlocks(ParserKind(items[0].name, items[0].spec.decoders), items[0].spec.Fields()) + ParserBlocks(items[1..])
  }

  // ---------- writing ----------

  /** The final buffer once the blocks still to come are written, or the first error among them. */
  function Finish(buf: string, bs: seq<Block>): Result<string, string> {
    match BlocksText(bs)
    case Success(text) => Success(buf + text)
    case Failure(e) => Failure(e)
  }

  lemma FinishNothing(buf: string)
    ensures Finish(buf, []) == Success(buf)
  {
    assert buf + "" == buf;
  }

  lemma FinishStep(buf: string, xs: seq<Block>, ys: seq<Block>)
    ensures Finish(buf, xs + ys)
            == if Finish(buf, xs).Failure? then Finish(buf, xs) else Finish(Finish(buf, xs).value, ys)
  {
    BlocksTextConcat(xs, ys);
    if BlocksText(xs).Success? && BlocksText(ys).Success? {
      ConcatAssociative(buf, BlocksText(xs).value, BlocksText(ys).value);
    }
  }

  /** What the merge closure does for one field: nothing, a section, or an error. */
  ghost predicate WroteField(before: string, after: string, err: Option<string>, kind: Kind, f: Field) {
    if !f.Plugged? then err.None? && after == before
    else match BlockText(PluginBlock(kind, f.plugin))
         case Success(text) => err.None? && after == before + text
         case Failure(e) => err == Some(e)
  }

  lemma FieldFinishes(before: string, after: string, err: Option<string>, kind: Kind, f: Field)
    requires WroteField(before, after, err, kind, f)
    ensures Finish(before, FieldBlocks(kind, f)) == if err.Some? then Failure(err.value) else Success(after)
  {
    if f.Plugged? {
      BlocksTextOne(PluginBlock(kind, f.plugin));
    } else {
      FinishNothing(before);
    }
  }

  lemma BlockTextParts(start: string, b: Block)
    requires b.params.Success?
    ensures start + (b.header + "\n") + Render(b.lead) + Render(b.params.value) + Render(b.trail)
            == start + BlockText(b).value
  {
    RenderConcat(b.lead, b.params.value);
    RenderConcat(b.lead + b.params.value, b.trail);
    ConcatFive(start, b.header + "\n", Render(b.lead), Render(b.params.value), Render(b.trail));
  }

  lemma ConcatFive(start: string, h: string, x: string, y: string, z: string)
    ensures start + h + x + y + z == start + (h + (x + y + z))
  {
    ConcatAssociative(start, h, x);
    ConcatAssociative(start, h + x, y);
    ConcatAssociative(start, h + x + y, z);
    ConcatAssociative(h, x, y);
    ConcatAssociative(h, x + y, z);
  }

  /** An optional line: written only when the value is set. */
  method WriteUnless(buf: string, key: string, value: string, ghost start: string, ghost lead: seq<Pair>)
    returns (out: string)
    requires buf == start + Render(lead)
    ensures out == start + Render(lead + Unless(key, value))
  {
    if value == "" {
      assert lead + [] == lead;
      return buf;
    }
    RenderSnoc(lead, Pair(key, value));
    ConcatAssociative(start, Render(lead), RenderLine(Pair(key, value)) + "\n");
    return buf + (RenderLine(Pair(key, value)) + "\n");
  }

  /** The header and the first lines of a section. */
  method WriteHeader(buf: string, header: string, first: Pair) returns (out: string)
    ensures out == buf + (header + "\n") + Render([first])
  {
    RenderOne(first);
    out := buf + (header + "\n") + (RenderLine(first) + "\n");
  }

  /** The rest of a section: the parameters, or the error in their place. */
  method WriteParams(buf: string, params: Result<seq<Pair>, string>, ghost start: string, ghost b: Block)
    returns (out: string, err: Option<string>)
    requires buf == start + (b.header + "\n") + Render(b.lead)
    requires params == b.params
    ensures if params.Failure? then err == Some(params.error)
            else err.None? && out + Render(b.trail) == start + BlockText(b).value
  {
    if params.Failure? {
      return buf, Some(params.error);
    }
    BlockTextParts(start, b);
    return buf + Render(params.value), None;
  }

  method InputLead(buf: string, alias: string, p: Plugin) returns (out: string)
    ensures out == buf + ("[Input]" + "\n") + Render(PluginBlock(InputKind(alias), p).lead)
  {
    out := WriteHeader(buf, "[Input]", Pair("Name", p.name));
    out := WriteUnless(out, "Alias", alias, buf + ("[Input]" + "\n"), [Pair("Name", p.name)]);
  }

  method MergeInput(buf: string, alias: string, f: Field) returns (out: string, err: Option<string>)
    ensures WroteField(buf, out, err, InputKind(alias), f)
  {
    if !f.Plugged? {
      return buf, None;
    }
    ghost var b := PluginBlock(InputKind(alias), f.plugin);
    out := InputLead(buf, alias, f.plugin);
    out, err := WriteParams(out, f.plugin.params, buf, b);
    assert out + Render(b.trail) == out;
  }

  method FilterLead(buf: string, tag: string, regex: string, p: Plugin) returns (out: string)
    ensures out == buf + ("[Filter]" + "\n") + Render(PluginBlock(FilterKind(tag, regex), p).lead)
  {
    ghost var start, lead := buf + ("[Filter]" + "\n"), [Pair("Name", p.name)];
    out := WriteHeader(buf, "[Filter]", Pair("Name", p.name));
    out := WriteUnless(out, "Match", tag, start, lead);
    out := WriteUnless(out, "Match_Regex", regex, start, lead + Unless("Match", tag));
  }

  method MergeFilter(buf: string, tag: string, regex: string, f: Field) returns (out: string, err: Option<string>)
    ensures WroteField(buf, out, err, FilterKind(tag, regex), f)
  {
    if !f.Plugged? {
      return buf, None;
    }
    ghost var b := PluginBlock(FilterKind(tag, regex), f.plugin);
    out := FilterLead(buf, tag, regex, f.plugin);
    out, err := WriteParams(out, f.plugin.params, buf, b);
    assert out + Render(b.trail) == out;
  }

  method OutputLead(buf: string, spec: OutputSpec, p: Plugin) returns (out: string)
    ensures out == buf + ("[Output]" + "\n") + Render(PluginBlock(OutputKindOf(spec), p).lead)
  {
    ghost var start, lead := buf + ("[Output]" + "\n"), [Pair("Name", p.name)];
    out := WriteHeader(buf, "[Output]", Pair("Name", p.name));
    out := WriteUnless(out, "Match", spec.matchTag, start, lead);
    lead := lead + Unless("Match", spec.matchTag);
    out := WriteUnless(out, "Match_Regex", spec.matchRegex, start, lead);
    lead := lead + Unless("Match_Regex", spec.matchRegex);
    out := WriteUnless(out, "Alias", spec.alias, start, lead);
    lead := lead + Unless("Alias", spec.alias);
    out := WriteUnless(out, "Retry_Limit", spec.retryLimit, start, lead);
  }

  method MergeOutput(buf: string, spec: OutputSpec, f: Field) returns (out: string, err: Option<string>)
    ensures WroteField(buf, out, err, OutputKindOf(spec), f)
  {
    if !f.Plugged? {
      return buf, None;
    }
    ghost var b := PluginBlock(OutputKindOf(spec), f.plugin);
    out := OutputLead(buf, spec, f.plugin);
    out, err := WriteParams(out, f.plugin.params, buf, b);
    assert out + Render(b.trail) == out;
  }

  method ParserLead(buf: string, item: string, decoders: seq<Decoder>, p: Plugin) returns (out: string)
    ensures out == buf + ("[PARSER]" + "\n") + Render(PluginBlock(ParserKind(item, decoders), p).lead)
  {
    ghost var first, second := [Pair("Name", item)], Pair("Format", p.name);
    out := WriteHeader(buf, "[PARSER]", Pair("Name", item));
    RenderSnoc(first, second);
    assert first + [second] == PluginBlock(ParserKind(item, decoders), p).lead;
    ConcatAssociative(buf + ("[PARSER]" + "\n"), Render(first), RenderLine(second) + "\n");
    out := out + (RenderLine(Pair("Format", p.name)) + "\n");
  }

  method MergeParser(buf: string, item: string, decoders: seq<Decoder>, f: Field)
    returns (out: string, err: Option<string>)
    ensures WroteField(buf, out, err, ParserKind(item, decoders), f)
  {
    if !f.Plugged? {
      return buf, None;
    }
    ghost var b := PluginBlock(ParserKind(item, decoders), f.plugin);
    out := ParserLead(buf, item, decoders, f.plugin);
    out, err := WriteParams(out, f.plugin.params, buf, b);
    if err.None? {
      out := WriteDecoders(out, decoders);
    }
  }

  method WriteDecoders(buf: string, decoders: seq<Decoder>) returns (out: string)
    ensures out == buf + Render(DecoderPairs(decoders))
  {
    out := buf;
    for i := 0 to |decoders|
      invariant out == buf + Render(DecoderPairs(decoders[..i]))
    {
      assert decoders[..i + 1][..i] == decoders[..i];
      ghost var before := DecoderPairs(decoders[..i]);
      out := WriteUnless(out, "Decode_Field", decoders[i].decodeField, buf, before);
      out := WriteUnless(out, "Decode_Field_As", decoders[i].decodeFieldAs, buf,
                         before + Unless("Decode_Field", decoders[i].decodeField));
    }
    assert decoders[..|decoders|] == decoders;
  }

  lemma FinishEmpty(bs: seq<Block>)
    ensures Finish("", bs) == BlocksText(bs)
  {
    if BlocksText(bs).Success? {
      assert "" + BlocksText(bs).value == BlocksText(bs).value;
    }
  }

  /** A field was handled: what remains to be written follows it, or its error ends the row. */
  lemma RowStep(buf: string, out: string, err: Option<string>, kind: Kind, fields: seq<Field>)
    requires fields != [] && WroteField(buf, out, err, kind, fields[0])
    ensures Finish(buf, RowBlocks(kind, fields))
            == if err.Some? then Failure(err.value) else Finish(out, RowBlocks(kind, fields[1..]))
  {
    FieldFinishes(buf, out, err, kind, fields[0]);
    FinishStep(buf, FieldBlocks(kind, fields[0]), RowBlocks(kind, fields[1..]));
  }
}
