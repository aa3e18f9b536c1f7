/**
 What the rendered sections say, read back line by line and without reference to how they were written:
 which lines a section starts with, which plugins of an item get a section and in which order, and which
 error stops the rendering.
 */
module SectionLaws {
  import opened Common
  import opened Sorting
  import opened Params
  import opened Sections
  import opened ConfigRender

  // ---------- lines ----------

  /** A line is indented by four spaces, and four spaces separate key and value. */
  lemma LineIs(p: Pair)
    ensures RenderLine(p) == "    " + p.key + "    " + p.value
  {
    ConcatAssociative("    ", p.key, "    " + p.value);
    ConcatAssociative(p.key, "    ", p.value);
    ConcatAssociative("    " + p.key, "    ", p.value);
  }

  /** The lines of the section read as `heads`, then follow the lines of the parameters, then `tails`. */
  ghost predicate ReadsAs(sec: Section, header: string, heads: seq<Pair>, params: seq<Pair>, tails: seq<Pair>) {
    && sec.header == header
    && |sec.lines| == |heads| + |params| + |tails|
    && (forall i :: 0 <= i < |heads| ==> ParseLine(sec.lines[i]) == Some(heads[i]))
    && sec.lines[|heads|..|heads| + |params|] == PairLines(params)
    && (forall i :: 0 <= i < |tails| ==> ParseLine(sec.lines[|heads| + |params| + i]) == Some(tails[i]))
  }

  lemma BlockReadsAs(b: Block)
    requires b.params.Success? && Clean(b.lead) && Clean(b.trail)
    ensures ReadsAs(BlockSection(b), b.header, b.lead, b.params.value, b.trail)
  {
    var ps := b.lead + b.params.value + b.trail;
    var lines := BlockSection(b).lines;
    forall i | 0 <= i < |b.lead| ensures ParseLine(lines[i]) == Some(b.lead[i]) {
      assert ps[i] == b.lead[i];
      ParseLineRendered(b.lead[i]);
    }
    var n := |b.lead| + |b.params.value|;
    assert lines[|b.lead|..n] == PairLines(b.params.value);
    forall i | 0 <= i < |b.trail| ensures ParseLine(lines[n + i]) == Some(b.trail[i]) {
      assert ps[n + i] == b.trail[i];
      ParseLineRendered(b.trail[i]);
    }
  }

  // ---------- the lines before the parameters ----------

  /** The order of the lines before the parameters. */
  function Rank(key: string): int {
    if key == "Name" then 0
    else if key == "Match" then 1
    else if key == "Match_Regex" then 2
    else if key == "Alias" then 3
    else if key == "Retry_Limit" then 4
    else 5
  }

  predicate Ranked(ps: seq<Pair>) {
    forall i, j :: 0 <= i < j < |ps| ==> Rank(ps[i].key) < Rank(ps[j].key)
  }

  predicate RankedUpTo(ps: seq<Pair>, key: string) {
    Ranked(ps) && forall i :: 0 <= i < |ps| ==> Rank(ps[i].key) < Rank(key)
  }

  lemma OptionalLine(ps: seq<Pair>, key: string, value: string, next: string)
    requires RankedUpTo(ps, key) && Rank(key) < Rank(next)
    ensures RankedUpTo(ps + Unless(key, value), next)
    ensures forall q :: q in ps + Unless(key, value) <==> q in ps || (value != "" && q == Pair(key, value))
  {
  }

  predicate OneLine(s: string) {
    '\n' !in s
  }

  lemma KeysAreClean()
    ensures forall key :: key in {"Name", "Alias", "Match", "Match_Regex", "Retry_Limit", "Format"} ==>
                            ' ' !in key && OneLine(key)
  {
  }

  /** An input's section: Name with the plugin's name, Alias if it is set, then the parameters. */
  lemma InputSectionReads(alias: string, p: Plugin) returns (heads: seq<Pair>)
    requires p.params.Success? && OneLine(p.name) && OneLine(alias)
    ensures ReadsAs(BlockSection(PluginBlock(InputKind(alias), p)), "[Input]", heads, p.params.value, [])
    ensures Ranked(heads)
    ensures forall q :: q in heads <==> q == Pair("Name", p.name) || (alias != "" && q == Pair("Alias", alias))
  {
    KeysAreClean();
    heads := [Pair("Name", p.name)];
    OptionalLine(heads, "Alias", alias, "Retry_Limit");
    heads := heads + Unless("Alias", alias);
    BlockReadsAs(PluginBlock(InputKind(alias), p));
  }

  /** The lines a filter puts before the parameters. */
  predicate FilterHead(spec: FilterSpec, name: string, q: Pair) {
    || q == Pair("Name", name)
    || (spec.matchTag != "" && q == Pair("Match", spec.matchTag))
    || (spec.matchRegex != "" && q == Pair("Match_Regex", spec.matchRegex))
  }

  lemma FilterHeads(spec: FilterSpec, p: Plugin) returns (heads: seq<Pair>)
    ensures heads == PluginBlock(FilterKindOf(spec), p).lead && Ranked(heads)
    ensures forall q :: q in heads <==> FilterHead(spec, p.name, q)
  {
    heads := [Pair("Name", p.name)];
    OptionalLine(heads, "Match", spec.matchTag, "Match_Regex");
    heads := heads + Unless("Match", spec.matchTag);
    OptionalLine(heads, "Match_Regex", spec.matchRegex, "Alias");
    heads := heads + Unless("Match_Regex", spec.matchRegex);
  }

  /** A filter's section: Name, then Match and Match_Regex as far as they are set, then the parameters. */
  lemma FilterSectionReads(spec: FilterSpec, p: Plugin) returns (heads: seq<Pair>)
    requires p.params.Success? && OneLine(p.name) && OneLine(spec.matchTag) && OneLine(spec.matchRegex)
    ensures ReadsAs(BlockSection(PluginBlock(FilterKindOf(spec), p)), "[Filter]", heads, p.params.value, [])
    ensures Ranked(heads) && forall q :: q in heads <==> FilterHead(spec, p.name, q)
  {
    heads := FilterHeads(spec, p);
    KeysAreClean();
    forall i | 0 <= i < |heads| ensures CleanPair(heads[i]) {
      assert FilterHead(spec, p.name, heads[i]);
    }
    BlockReadsAs(PluginBlock(FilterKindOf(spec), p));
  }

  /** The lines an output puts before the parameters. */
  predicate OutputHead(spec: OutputSpec, name: string, q: Pair) {
    || q == Pair("Name", name)
    || (spec.matchTag != "" && q == Pair("Match", spec.matchTag))
    || (spec.matchRegex != "" && q == Pair("Match_Regex", spec.matchRegex))
    || (spec.alias != "" && q == Pair("Alias", spec.alias))
    || (spec.retryLimit != "" && q == Pair("Retry_Limit", spec.retryLimit))
  }

  lemma OutputHeads(spec: OutputSpec, p: Plugin) returns (heads: seq<Pair>)
    ensures heads == PluginBlock(OutputKindOf(spec), p).lead && Ranked(heads)
    ensures forall q :: q in heads <==> OutputHead(spec, p.name, q)
  {
    heads := [Pair("Name", p.name)];
    OptionalLine(heads, "Match", spec.matchTag, "Match_Regex");
    heads := heads + Unless("Match", spec.matchTag);
    OptionalLine(heads, "Match_Regex", spec.matchRegex, "Alias");
    heads := heads + Unless("Match_Regex", spec.matchRegex);
    OptionalLine(heads, "Alias", spec.alias, "Retry_Limit");
    heads := heads + Unless("Alias", spec.alias);
    OptionalLine(heads, "Retry_Limit", spec.retryLimit, "");
    heads := heads + Unless("Retry_Limit", spec.retryLimit);
  }

  /** An output's section: Name, then Match, Match_Regex, Alias and Retry_Limit as far as they are set. */
  lemma OutputSectionReads(spec: OutputSpec, p: Plugin) returns (heads: seq<Pair>)
    requires p.params.Success? && OneLine(p.name) && OneLine(spec.matchTag) && OneLine(spec.matchRegex)
    requires OneLine(spec.alias) && OneLine(spec.retryLimit)
    ensures ReadsAs(BlockSection(PluginBlock(OutputKindOf(spec), p)), "[Output]", heads, p.params.value, [])
    ensures Ranked(heads) && forall q :: q in heads <==> OutputHead(spec, p.name, q)
  {
    heads := OutputHeads(spec, p);
    KeysAreClean();
    forall i | 0 <= i < |heads| ensures CleanPair(heads[i]) {
      assert OutputHead(spec, p.name, heads[i]);
    }
    BlockReadsAs(PluginBlock(OutputKindOf(spec), p));
  }

  // ---------- parsers ----------

  /** The decoder lines come in the order of the decoders ... */
  lemma {:induction false} DecodersInOrder(ds: seq<Decoder>, more: seq<Decoder>)
    ensures DecoderPairs(ds + more) == DecoderPairs(ds) + DecoderPairs(more)
  {
    if more == [] {
      assert ds + more == ds;
    } else {
      var init := more[..|more| - 1];
      assert (ds + more)[..|ds + more| - 1] == ds + init;
      DecodersInOrder(ds, init);
    }
  }

  /** ... and each decoder gives the lines of what it sets, Decode_Field first. */
  lemma DecoderLines(d: Decoder)
    ensures d.decodeField == "" && d.decodeFieldAs == "" ==> DecoderPairs([d]) == []
    ensures d.decodeField != "" && d.decodeFieldAs == "" ==> DecoderPairs([d]) == [Pair("Decode_Field", d.decodeField)]
    ensures d.decodeField == "" && d.decodeFieldAs != "" ==>
              DecoderPairs([d]) == [Pair("Decode_Field_As", d.decodeFieldAs)]
    ensures d.decodeField != "" && d.decodeFieldAs != "" ==>
              DecoderPairs([d]) == [Pair("Decode_Field", d.decodeField), Pair("Decode_Field_As", d.decodeFieldAs)]
  {
    assert [d][..0] == [];
    assert DecoderPairs([]) == [];
  }

  lemma {:induction false} DecodersClean(ds: seq<Decoder>)
    requires forall i :: 0 <= i < |ds| ==> OneLine(ds[i].decodeField) && OneLine(ds[i].decodeFieldAs)
    ensures Clean(DecoderPairs(ds))
  {
    if ds != [] {
      var d := ds[|ds| - 1];
      DecodersClean(ds[..|ds| - 1]);
      assert CleanPair(Pair("Decode_Field", d.decodeField)) && CleanPair(Pair("Decode_Field_As", d.decodeFieldAs));
    }
  }

  lemma ParserHeadsClean(name: string, p: Plugin)
    requires OneLine(p.name) && OneLine(name)
    ensures Clean([Pair("Name", name), Pair("Format", p.name)])
  {
    KeysAreClean();
  }

  /** A parser's section: Name with the item's name, Format with the plugin's, the parameters, the decoders. */
  lemma ParserSectionReads(name: string, decoders: seq<Decoder>, p: Plugin)
    requires p.params.Success? && OneLine(p.name) && OneLine(name)
    requires forall i :: 0 <= i < |decoders| ==> OneLine(decoders[i].decodeField) && OneLine(decoders[i].decodeFieldAs)
    ensures ReadsAs(BlockSection(PluginBlock(ParserKind(name, decoders), p)), "[PARSER]",
                    [Pair("Name", name), Pair("Format", p.name)], p.params.value, DecoderPairs(decoders))
  {
    var b := PluginBlock(ParserKind(name, decoders), p);
    ParserHeadsClean(name, p);
    DecodersClean(decoders);
    assert b.lead == [Pair("Name", name), Pair("Format", p.name)];
    assert b.header == "[PARSER]" && b.params == p.params && b.trail == DecoderPairs(decoders);
    BlockReadsAs(b);
  }

  // ---------- which sections, and in which order ----------

  /** The plugins that are set, in the order given. */
  function SetPlugins(ps: seq<Option<Plugin>>): seq<Plugin> {
    if ps == [] then []
    else SetPlugins(ps[..|ps| - 1]) + if ps[|ps| - 1].Some? then [ps[|ps| - 1].value] else []
  }

  /** One section for each of the plugins, in their order. */
  ghost predicate SectionsFor(kind: Kind, ps: seq<Plugin>, bs: seq<Block>) {
    |bs| == |ps| && forall i :: 0 <= i < |ps| ==> bs[i] == PluginBlock(kind, ps[i])
  }

  function PluginFields(ps: seq<Option<Plugin>>): seq<Field> {
    seq(|ps|, i requires 0 <= i < |ps| => PluginField(ps[i]))
  }

  lemma {:induction false} RowConcat(kind: Kind, xs: seq<Field>, ys: seq<Field>)
    ensures RowBlocks(kind, xs + ys) == RowBlocks(kind, xs) + RowBlocks(kind, ys)
  {
    if xs == [] {
      assert xs + ys == ys;
    } else {
      assert (xs + ys)[1..] == xs[1..] + ys;
      RowConcat(kind, xs[1..], ys);
    }
  }

  lemma RowOne(kind: Kind, f: Field)
    ensures RowBlocks(kind, [f]) == FieldBlocks(kind, f)
  {
    assert [f][1..] == [];
    assert RowBlocks(kind, []) == [];
  }

  lemma {:induction false} RowSections(kind: Kind, ps: seq<Option<Plugin>>)
    ensures SectionsFor(kind, SetPlugins(ps), RowBlocks(kind, PluginFields(ps)))
  {
    if ps != [] {
      var init, last := ps[..|ps| - 1], ps[|ps| - 1];
      RowSections(kind, init);
      assert PluginFields(ps) == PluginFields(init) + [PluginField(last)];
      RowConcat(kind, PluginFields(init), [PluginField(last)]);
      RowOne(kind, PluginField(last));
    }
  }

  lemma {:induction false} NoPluginsNoSections(kind: Kind, fields: seq<Field>)
    requires forall i :: 0 <= i < |fields| ==> fields[i] == NotAPlugin
    ensures RowBlocks(kind, fields) == []
  {
    if fields != [] {
      NoPluginsNoSections(kind, fields[1..]);
    }
  }

  /** An input's sections: dummy, tail, systemd. */
  lemma InputItemSections(item: Named<InputSpec>)
    ensures var s := item.spec;
            SectionsFor(InputKind(s.alias), SetPlugins([s.dummy, s.tail, s.systemd]), InputBlocks([item]))
  {
    var s := item.spec;
    var kind, ps := InputKind(s.alias), [s.dummy, s.tail, s.systemd];
    assert s.Fields() == [NotAPlugin] + PluginFields(ps);
    RowConcat(kind, [NotAPlugin], PluginFields(ps));
    NoPluginsNoSections(kind, [NotAPlugin]);
    RowSections(kind, ps);
    assert [item][1..] == [];
    assert InputBlocks([]) == [];
  }

  function FilterPlugins(e: FilterItem): seq<Option<Plugin>> {
    [e.grep, e.recordModifier, e.kubernetes, e.modify_, e.nest, e.parser,
     if e.lua.Some? then Some(e.lua.value.0) else None, e.throttle, e.rewriteTag]
  }

  /** The sections of one filter element, in the order of its fields. */
  lemma FilterElementSections(kind: Kind, e: FilterItem)
    ensures SectionsFor(kind, SetPlugins(FilterPlugins(e)), FilterItemBlocks(kind, [e]))
  {
    var ps := FilterPlugins(e);
    assert e.Fields() == PluginFields(ps);
    RowSections(kind, ps);
    assert [e][1..] == [];
    assert FilterItemBlocks(kind, []) == [];
  }

  function OutputPlugins(s: OutputSpec): seq<Option<Plugin>> {
    [s.elasticsearch, s.file, s.forward, s.http, s.kafka, s.null_, s.stdout, s.tcp, s.loki, s.syslog, s.datadog]
  }

  /** The sections of an output, in the order of its fields. */
  lemma OutputItemSections(item: Named<OutputSpec>)
    ensures SectionsFor(OutputKindOf(item.spec), SetPlugins(OutputPlugins(item.spec)), OutputBlocks([item]))
  {
    var s := item.spec;
    var kind, ps := OutputKindOf(s), OutputPlugins(s);
    var others := [NotAPlugin, NotAPlugin, NotAPlugin, NotAPlugin];
    assert s.Fields() == others + PluginFields(ps);
    RowConcat(kind, others, PluginFields(ps));
    NoPluginsNoSections(kind, others);
    RowSections(kind, ps);
    assert [item][1..] == [];
    assert OutputBlocks([]) == [];
  }

  /** A parser's sections: json, regex, ltsv, logfmt. */
  lemma ParserItemSections(item: Named<ParserSpec>)
    ensures var s := item.spec;
            SectionsFor(ParserKind(item.name, s.decoders), SetPlugins([s.json, s.regex, s.ltsv, s.logfmt]),
                        ParserBlocks([item]))
  {
    var s := item.spec;
    var kind, ps := ParserKind(item.name, s.decoders), [s.json, s.regex, s.ltsv, s.logfmt];
    assert s.Fields() == PluginFields(ps) + [NotAPlugin];
    RowConcat(kind, PluginFields(ps), [NotAPlugin]);
    NoPluginsNoSections(kind, [NotAPlugin]);
    RowSections(kind, ps);
    assert [item][1..] == [];
    assert ParserBlocks([]) == [];
  }

  // ---------- items keep their order ----------

  lemma {:induction false} InputsInOrder(xs: seq<Named<InputSpec>>, ys: seq<Named<InputSpec>>)
    ensures InputBlocks(xs + ys) == InputBlocks(xs) + InputBlocks(ys)
  {
    if xs == [] {
      assert xs + ys == ys;
    } else {
      assert (xs + ys)[1..] == xs[1..] + ys;
      InputsInOrder(xs[1..], ys);
    }
  }

  lemma {:induction false} ElementsInOrder(kind: Kind, xs: seq<FilterItem>, ys: seq<FilterItem>)
    ensures FilterItemBlocks(kind, xs + ys) == FilterItemBlocks(kind, xs) + FilterItemBlocks(kind, ys)
  {
    if xs == [] {
      assert xs + ys == ys;
    } else {
      assert (xs + ys)[1..] == xs[1..] + ys;
      ElementsInOrder(kind, xs[1..], ys);
    }
  }

  lemma {:induction false} FiltersInOrder(xs: seq<Named<FilterSpec>>, ys: seq<Named<FilterSpec>>)
    ensures FilterBlocks(xs + ys) == FilterBlocks(xs) + FilterBlocks(ys)
  {
    if xs == [] {
      assert xs + ys == ys;
    } else {
      var first := FilterItemBlocks(FilterKindOf(xs[0].spec), xs[0].spec.items);
      assert (xs + ys)[1..] == xs[1..] + ys && (xs + ys)[0] == xs[0];
      FiltersInOrder(xs[1..], ys);
      ConcatAssociative(first, FilterBlocks(xs[1..]), FilterBlocks(ys));
    }
  }

  /** One filter's sections are those of its elements, in order, under its match. */
  lemma FilterSections(item: Named<FilterSpec>)
    ensures FilterBlocks([item]) == FilterItemBlocks(FilterKindOf(item.spec), item.spec.items)
  {
    assert [item][1..] == [];
    assert FilterBlocks([]) == [];
  }

  lemma {:induction false} OutputsInOrder(xs: seq<Named<OutputSpec>>, ys: seq<Named<OutputSpec>>)
    ensures OutputBlocks(xs + ys) == OutputBlocks(xs) + OutputBlocks(ys)
  {
    if xs == [] {
      assert xs + ys == ys;
    } else {
      assert (xs + ys)[1..] == xs[1..] + ys;
      OutputsInOrder(xs[1..], ys);
    }
  }

  lemma {:induction false} ParsersInOrder(xs: seq<Named<ParserSpec>>, ys: seq<Named<ParserSpec>>)
    ensures ParserBlocks(xs + ys) == ParserBlocks(xs) + ParserBlocks(ys)
  {
    if xs == [] {
      assert xs + ys == ys;
    } else {
      assert (xs + ys)[1..] == xs[1..] + ys;
      ParsersInOrder(xs[1..], ys);
    }
  }

  // ---------- headers ----------

  function HeaderOf(kind: Kind): string {
    match kind
    case InputKind(_) => "[Input]"
    case FilterKind(_, _) => "[Filter]"
    case OutputKind(_, _, _, _) => "[Output]"
    case ParserKind(_, _) => "[PARSER]"
  }

  predicate AllHeaded(bs: seq<Block>, header: string) {
    forall i :: 0 <= i < |bs| ==> bs[i].header == header
  }

  lemma {:induction false} RowHeaded(kind: Kind, fields: seq<Field>)
    ensures AllHeaded(RowBlocks(kind, fields), HeaderOf(kind))
  {
    if fields != [] {
      RowHeaded(kind, fields[1..]);
    }
  }

  lemma {:induction false} InputsHeaded(items: seq<Named<InputSpec>>)
    ensures AllHeaded(InputBlocks(items), "[Input]")
  {
    if items != [] {
      RowHeaded(InputKind(items[0].spec.alias), items[0].spec.Fields());
      InputsHeaded(items[1..]);
    }
  }

  lemma {:induction false} ElementsHeaded(kind: Kind, elems: seq<FilterItem>)
    requires kind.FilterKind?
    ensures AllHeaded(FilterItemBlocks(kind, elems), "[Filter]")
  {
    if elems != [] {
      RowHeaded(kind, elems[0].Fields());
      ElementsHeaded(kind, elems[1..]);
    }
  }

  lemma {:induction false} FiltersHeaded(items: seq<Named<FilterSpec>>)
    ensures AllHeaded(FilterBlocks(items), "[Filter]")
  {
    if items != [] {
      ElementsHeaded(FilterKindOf(items[0].spec), items[0].spec.items);
      FiltersHeaded(items[1..]);
    }
  }

  lemma {:induction false} OutputsHeaded(items: seq<Named<OutputSpec>>)
    ensures AllHeaded(OutputBlocks(items), "[Output]")
  {
    if items != [] {
      RowHeaded(OutputKindOf(items[0].spec), items[0].spec.Fields());
      OutputsHeaded(items[1..]);
    }
  }

  lemma {:induction false} SectionHeaders(bs: seq<Block>)
    requires BlocksText(bs).Success?
    ensures |BlockSections(bs)| == |bs|
    ensures forall i :: 0 <= i < |bs| ==> BlockSections(bs)[i].header == bs[i].header
  {
    if bs != [] {
      SectionHeaders(bs[1..]);
    }
  }

  // ---------- errors ----------

  /** Block i fails and none before it does. */
  predicate FirstFailing(bs: seq<Block>, i: int, e: string) {
    0 <= i < |bs| && bs[i].params == Failure(e) && forall j :: 0 <= j < i ==> bs[j].params.Success?
  }

  /** Rendering fails exactly with the error of the first plugin whose parameters fail. */
  lemma {:induction false} FirstErrorWins(bs: seq<Block>, e: string)
    ensures BlocksText(bs) == Failure(e) <==> exists i :: FirstFailing(bs, i, e)
  {
    if bs != [] {
      var rest := bs[1..];
      FirstErrorWins(rest, e);
      if bs[0].params == Failure(e) {
        assert FirstFailing(bs, 0, e);
      }
      if bs[0].params.Success? {
        forall i | 0 <= i < |rest| ensures FirstFailing(rest, i, e) <==> FirstFailing(bs, i + 1, e) {
          assert forall j :: 0 <= j < |rest| ==> rest[j] == bs[j + 1];
          assert forall j :: 0 < j < |bs| ==> bs[j] == rest[j - 1];
        }
        if i :| FirstFailing(bs, i, e) {
          assert FirstFailing(rest, i - 1, e);
        }
      }
    }
  }
}
