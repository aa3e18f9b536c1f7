/** The configuration files of one FluentBitConfig: main configuration, parsers and Lua scripts. */
module MainConfig {
  import opened Common
  import opened Sorting
  import opened Params
  import opened Sections
  import opened ConfigRender
  import opened PluginLists
  import opened SectionLaws

  /** The service settings, already formatted; None is a nil pointer. */
  datatype Service = Service(
    daemon: Option<string>, flushSeconds: Option<string>, graceSeconds: Option<string>, httpListen: string,
    httpPort: Option<string>, httpServer: Option<string>, logFile: string, logLevel: string, parsersFile: string)

  function IfSet(key: string, value: Option<string>): seq<Pair> {
    if value.None? then [] else [Pair(key, value.value)]
  }

  function EngineAndHttpPairs(s: Service): seq<Pair> {
    IfSet("Daemon", s.daemon) + IfSet("Flush", s.flushSeconds) + IfSet("Grace", s.graceSeconds)
    + Unless("Http_Listen", s.httpListen) + IfSet("Http_Port", s.httpPort)
  }

  function ServicePairs(s: Service): seq<Pair> {
    EngineAndHttpPairs(s) + IfSet("Http_Server", s.httpServer)
    + Unless("Log_File", s.logFile) + Unless("Log_Level", s.logLevel) + Unless("Parsers_File", s.parsersFile)
  }

  method InsertIfSet(m: KVs, key: string, value: Option<string>)
    requires m.Valid()
    modifies m
    ensures m.Valid() && m.Pairs() == old(m.Pairs()) + IfSet(key, value)
  {
    if value.Some? {
      m.Insert(key, value.value);
    }
  }

  method InsertUnless(m: KVs, key: string, value: string)
    requires m.Valid()
    modifies m
    ensures m.Valid() && m.Pairs() == old(m.Pairs()) + Unless(key, value)
  {
    if value != "" {
      m.Insert(key, value);
    }
  }

  method ServiceParams(s: Service) returns (m: KVs)
    ensures fresh(m) && m.Valid() && m.Pairs() == ServicePairs(s)
  {
    m := new KVs();
    InsertIfSet(m, "Daemon", s.daemon);
    InsertIfSet(m, "Flush", s.flushSeconds);
    InsertIfSet(m, "Grace", s.graceSeconds);
    InsertUnless(m, "Http_Listen", s.httpListen);
    InsertIfSet(m, "Http_Port", s.httpPort);
    ServiceParamsTail(m, s);
  }

  method ServiceParamsTail(m: KVs, s: Service)
    requires m.Valid() && m.Pairs() == EngineAndHttpPairs(s)
    modifies m
    ensures m.Valid() && m.Pairs() == ServicePairs(s)
  {
    InsertIfSet(m, "Http_Server", s.httpServer);
    InsertUnless(m, "Log_File", s.logFile);
    InsertUnless(m, "Log_Level", s.logLevel);
    InsertUnless(m, "Parsers_File", s.parsersFile);
  }

  function ServiceText(service: Option<Service>): string {
    if service.None? then "" else "[Service]\n" + Render(ServicePairs(service.value))
  }

  /** Setting q is in the service section. */
  predicate ServiceSetting(s: Service, q: Pair) {
    match q.key
    case "Daemon" => s.daemon == Some(q.value)
    case "Flush" => s.flushSeconds == Some(q.value)
    case "Grace" => s.graceSeconds == Some(q.value)
    case "Http_Listen" => q.value == s.httpListen != ""
    case "Http_Port" => s.httpPort == Some(q.value)
    case "Http_Server" => s.httpServer == Some(q.value)
    case "Log_File" => q.value == s.logFile != ""
    case "Log_Level" => q.value == s.logLevel != ""
    case "Parsers_File" => q.value == s.parsersFile != ""
    case _ => false
  }

  /** The place of a setting among the others. */
  function ServiceRank(key: string): int {
    match key
    case "Daemon" => 1
    case "Flush" => 2
    case "Grace" => 3
    case "Http_Listen" => 4
    case "Http_Port" => 5
    case "Http_Server" => 6
    case "Log_File" => 7
    case "Log_Level" => 8
    case "Parsers_File" => 9
    case _ => 0
  }

  /** The settings stand in their order, all ranked at most n. */
  predicate RankedTo(ps: seq<Pair>, n: int) {
    && (forall i, j :: 0 <= i < j < |ps| ==> ServiceRank(ps[i].key) < ServiceRank(ps[j].key))
    && (forall i :: 0 <= i < |ps| ==> ServiceRank(ps[i].key) <= n)
  }

  lemma SettingFollows(ps: seq<Pair>, more: seq<Pair>, n: int)
    requires RankedTo(ps, n - 1)
    requires |more| <= 1 && forall i :: 0 <= i < |more| ==> ServiceRank(more[i].key) == n
    ensures RankedTo(ps + more, n)
  {
  }

  lemma EngineRanked(s: Service)
    ensures RankedTo(EngineAndHttpPairs(s), 5)
  {
    var ps := IfSet("Daemon", s.daemon);
    assert RankedTo(ps, 1);
    SettingFollows(ps, IfSet("Flush", s.flushSeconds), 2);
    ps := ps + IfSet("Flush", s.flushSeconds);
    SettingFollows(ps, IfSet("Grace", s.graceSeconds), 3);
    ps := ps + IfSet("Grace", s.graceSeconds);
    SettingFollows(ps, Unless("Http_Listen", s.httpListen), 4);
    ps := ps + Unless("Http_Listen", s.httpListen);
    SettingFollows(ps, IfSet("Http_Port", s.httpPort), 5);
  }

  /** The service section holds each setting that is set, under its key, once and in the order of the settings. */
  lemma ServiceSettings(s: Service)
    ensures forall q :: q in ServicePairs(s) <==> ServiceSetting(s, q)
    ensures RankedTo(ServicePairs(s), 9)
  {
    forall q ensures q in ServicePairs(s) <==> ServiceSetting(s, q) {
      EngineSettings(s, q);
    }
    EngineRanked(s);
    var ps := EngineAndHttpPairs(s);
    SettingFollows(ps, IfSet("Http_Server", s.httpServer), 6);
    ps := ps + IfSet("Http_Server", s.httpServer);
    SettingFollows(ps, Unless("Log_File", s.logFile), 7);
    ps := ps + Unless("Log_File", s.logFile);
    SettingFollows(ps, Unless("Log_Level", s.logLevel), 8);
    ps := ps + Unless("Log_Level", s.logLevel);
    SettingFollows(ps, Unless("Parsers_File", s.parsersFile), 9);
  }

  lemma EngineSettings(s: Service, q: Pair)
    ensures q in EngineAndHttpPairs(s)
            <==> ServiceSetting(s, q) && 1 <= ServiceRank(q.key) <= 5
  {
  }

  /** The literal text of the null output; its last line has no newline. */
  const NULL_OUTPUT := "[Output]\n    Name    null\n    Match   *"

  /** The main configuration, given the three lists in the order they were sorted into. */
  function MainText(service: Option<Service>, inputs: seq<Named<InputSpec>>, filters: seq<Named<FilterSpec>>,
                    outputs: seq<Named<OutputSpec>>): Result<string, string>
  {
    var i := BlocksText(InputBlocks(inputs));
    if i.Failure? then i
    else
      var f := BlocksText(FilterBlocks(filters));
      if f.Failure? then f
      else
        var o := BlocksText(OutputBlocks(outputs));
        if o.Failure? then o
        else Success(ServiceText(service) + i.value + f.value
                     + if i.value != "" && o.value == "" then NULL_OUTPUT else o.value)
  }

  /** The inputs' error comes first, then the filters', then the outputs'; without any there is a text. */
  lemma MainFailsIff(service: Option<Service>, inputs: seq<Named<InputSpec>>, filters: seq<Named<FilterSpec>>,
                     outputs: seq<Named<OutputSpec>>, e: string)
    ensures MainText(service, inputs, filters, outputs) == Failure(e)
            <==> var i, f, o := BlocksText(InputBlocks(inputs)), BlocksText(FilterBlocks(filters)),
                                BlocksText(OutputBlocks(outputs));
                 || i == Failure(e)
                 || (i.Success? && f == Failure(e))
                 || (i.Success? && f.Success? && o == Failure(e))
  {
  }

  /** With distinct names, the outcome is the one for any sorted order of the lists. */
  ghost predicate IndependentOfOrder(
    service: Option<Service>, inputs: seq<Named<InputSpec>>, filters: seq<Named<FilterSpec>>,
    outputs: seq<Named<OutputSpec>>, r: Result<string, string>)
  {
    DistinctNames(inputs) && DistinctNames(filters) && DistinctNames(outputs) ==>
      forall si, sf, so ::
        SortedPermutation(si, inputs) && SortedPermutation(sf, filters) && SortedPermutation(so, outputs) ==>
          r == MainText(service, si, sf, so)
  }

  /** What is known when rendering stops: later lists are sorted only if the earlier ones rendered. */
  ghost predicate SortedAsFarAsNeeded(
    inputs: seq<Named<InputSpec>>, filters: seq<Named<FilterSpec>>, outputs: seq<Named<OutputSpec>>,
    si: seq<Named<InputSpec>>, sf: seq<Named<FilterSpec>>, so: seq<Named<OutputSpec>>)
  {
    && SortedPermutation(si, inputs)
    && multiset(sf) == multiset(filters) && multiset(so) == multiset(outputs)
    && (BlocksText(InputBlocks(si)).Success? ==> SortedByName(sf))
    && (BlocksText(InputBlocks(si)).Success? && BlocksText(FilterBlocks(sf)).Success? ==> SortedByName(so))
  }

  lemma OutcomeIsIndependent(
    service: Option<Service>,
    inputs: seq<Named<InputSpec>>, filters: seq<Named<FilterSpec>>, outputs: seq<Named<OutputSpec>>,
    si: seq<Named<InputSpec>>, sf: seq<Named<FilterSpec>>, so: seq<Named<OutputSpec>>)
    requires SortedAsFarAsNeeded(inputs, filters, outputs, si, sf, so)
    ensures IndependentOfOrder(service, inputs, filters, outputs, MainText(service, si, sf, so))
  {
    if DistinctNames(inputs) && DistinctNames(filters) && DistinctNames(outputs) {
      forall i, f, o | SortedPermutation(i, inputs) && SortedPermutation(f, filters) && SortedPermutation(o, outputs)
        ensures MainText(service, si, sf, so) == MainText(service, i, f, o)
      {
        SortsAgree(inputs, inputs, i, si);
        if BlocksText(InputBlocks(si)).Success? {
          SortsAgree(filters, filters, f, sf);
          if BlocksText(FilterBlocks(sf)).Success? {
            SortsAgree(outputs, outputs, o, so);
          }
        }
      }
    }
  }

  method RenderMainConfig(service: Option<Service>, inputs: InputList, filters: FilterList, outputs: OutputList)
    returns (r: Result<string, string>)
    modifies inputs, filters, outputs
    ensures r == MainText(service, inputs.items, filters.items, outputs.items)
    ensures SortedAsFarAsNeeded(old(inputs.items), old(filters.items), old(outputs.items),
                                inputs.items, filters.items, outputs.items)
    ensures IndependentOfOrder(service, old(inputs.items), old(filters.items), old(outputs.items), r)
  {
    r := WriteSections(service, inputs, filters, outputs);
    OutcomeIsIndependent(service, old(inputs.items), old(filters.items), old(outputs.items),
                         inputs.items, filters.items, outputs.items);
  }

  method WriteSections(service: Option<Service>, inputs: InputList, filters: FilterList, outputs: OutputList)
    returns (r: Result<string, string>)
    modifies inputs, filters, outputs
    ensures r == MainText(service, inputs.items, filters.items, outputs.items)
    ensures SortedAsFarAsNeeded(old(inputs.items), old(filters.items), old(outputs.items),
                                inputs.items, filters.items, outputs.items)
  {
    var buf := "";
    if service.Some? {
      var m := ServiceParams(service.value);
      var text := m.String();
      buf := "[Service]\n" + text;
    }
    var inputSections := inputs.Load();
    if inputSections.Failure? {
      return inputSections;
    }
    var filterSections := filters.Load();
    if filterSections.Failure? {
      return filterSections;
    }
    var outputSections := outputs.Load();
    if outputSections.Failure? {
      return outputSections;
    }
    var written := outputSections.value;
    if inputSections.value != "" && written == "" {
      written := NULL_OUTPUT;
    }
    return Success(buf + inputSections.value + filterSections.value + written);
  }

  // ---------- the order of the lists does not show ----------

  /**
   Whatever order the API returns the lists in and however an unstable sort breaks ties, the main
   configuration (or the error) is the same, as long as names within a list are distinct.
   */
  lemma OrderDoesNotMatter(
    service: Option<Service>,
    inputs: seq<Named<InputSpec>>, filters: seq<Named<FilterSpec>>, outputs: seq<Named<OutputSpec>>,
    inputs': seq<Named<InputSpec>>, filters': seq<Named<FilterSpec>>, outputs': seq<Named<OutputSpec>>,
    si: seq<Named<InputSpec>>, sf: seq<Named<FilterSpec>>, so: seq<Named<OutputSpec>>,
    si': seq<Named<InputSpec>>, sf': seq<Named<FilterSpec>>, so': seq<Named<OutputSpec>>)
    requires multiset(inputs) == multiset(inputs') && DistinctNames(inputs)
    requires multiset(filters) == multiset(filters') && DistinctNames(filters)
    requires multiset(outputs) == multiset(outputs') && DistinctNames(outputs)
    requires SortedPermutation(si, inputs) && SortedPermutation(sf, filters) && SortedPermutation(so, outputs)
    requires SortedPermutation(si', inputs') && SortedPermutation(sf', filters') && SortedPermutation(so', outputs')
    ensures MainText(service, si, sf, so) == MainText(service, si', sf', so')
  {
    SortsAgree(inputs, inputs', si, si');
    SortsAgree(filters, filters', sf, sf');
    SortsAgree(outputs, outputs', so, so');
  }

  // ---------- reading the file back ----------

  function ServiceSections(service: Option<Service>): seq<Section> {
    if service.None? then [] else [Section("[Service]", PairLines(ServicePairs(service.value)))]
  }

  const NULL_SECTION := Section("[Output]", ["    Name    null", "    Match   *"])

  /** The sections the main configuration should have, in order. */
  function ExpectedSections(service: Option<Service>, inputs: seq<Named<InputSpec>>, filters: seq<Named<FilterSpec>>,
                            outputs: seq<Named<OutputSpec>>): seq<Section>
    requires MainText(service, inputs, filters, outputs).Success?
  {
    var sections := AllSections(service, InputBlocks(inputs), FilterBlocks(filters), OutputBlocks(outputs));
    if InputBlocks(inputs) != [] && OutputBlocks(outputs) == [] then sections + [NULL_SECTION] else sections
  }

  function AllSections(service: Option<Service>, i: seq<Block>, f: seq<Block>, o: seq<Block>): seq<Section>
    requires BlocksText(i).Success? && BlocksText(f).Success? && BlocksText(o).Success?
  {
    ServiceSections(service) + BlockSections(i) + BlockSections(f) + BlockSections(o)
  }

  /** No string of the specs holds a newline. */
  ghost predicate NewlineFree(service: Option<Service>, inputs: seq<Named<InputSpec>>, filters: seq<Named<FilterSpec>>,
                              outputs: seq<Named<OutputSpec>>)
  {
    && (service.Some? ==>
          forall i :: 0 <= i < |ServicePairs(service.value)| ==> NoNewline(ServicePairs(service.value)[i]))
    && CleanBlocks(InputBlocks(inputs)) && CleanBlocks(FilterBlocks(filters)) && CleanBlocks(OutputBlocks(outputs))
  }

  ghost predicate CleanBlocks(bs: seq<Block>) {
    forall i :: 0 <= i < |bs| ==> CleanBlock(bs[i])
  }

  ghost predicate CleanSections(ss: seq<Section>) {
    forall i :: 0 <= i < |ss| ==> CleanSection(ss[i])
  }

  lemma ServiceIsClean(service: Option<Service>)
    requires service.Some? ==>
               forall i :: 0 <= i < |ServicePairs(service.value)| ==> NoNewline(ServicePairs(service.value)[i])
    ensures CleanSections(ServiceSections(service))
    ensures ServiceText(service) == LinesText(SectionLines(ServiceSections(service)))
  {
    if service.Some? {
      var ps := ServicePairs(service.value);
      forall i | 0 <= i < |ps| ensures CleanLine(RenderLine(ps[i])) && !IsHeader(RenderLine(ps[i])) {
        CleanPairLine(ps[i]);
      }
      RenderIsLines(ps);
      SectionLinesOne(ServiceSections(service)[0]);
    }
  }

  lemma SectionLinesOne(s: Section)
    ensures SectionLines([s]) == [s.header] + s.lines
    ensures LinesText(SectionLines([s])) == s.header + "\n" + LinesText(s.lines)
  {
    assert [s][1..] == [];
    assert ([s.header] + s.lines)[1..] == s.lines;
  }

  lemma SectionTextConcat(xs: seq<Section>, ys: seq<Section>)
    ensures LinesText(SectionLines(xs + ys)) == LinesText(SectionLines(xs)) + LinesText(SectionLines(ys))
  {
    SectionLinesConcat(xs, ys);
    LinesTextConcat(SectionLines(xs), SectionLines(ys));
  }

  lemma {:induction false} CleanSectionLines(ss: seq<Section>)
    requires CleanSections(ss)
    ensures forall i :: 0 <= i < |SectionLines(ss)| ==> CleanLine(SectionLines(ss)[i])
  {
    if ss != [] {
      assert CleanSection(ss[0]);
      CleanSectionLines(ss[1..]);
    }
  }

  /** A file made of clean sections reads back as those sections. */
  lemma SectionsReadBack(ss: seq<Section>)
    requires CleanSections(ss)
    ensures ReadSections(LinesText(SectionLines(ss))) == ss
  {
    var text := LinesText(SectionLines(ss));
    CleanSectionLines(ss);
    SplitLinesText(SectionLines(ss), "");
    assert text + "" == text;
    assert SectionLines(ss) + [] == SectionLines(ss);
    GroupSectionLines(ss);
  }

  /** ... also when the last line of the last section is unfinished. */
  lemma UnfinishedReadsBack(ss: seq<Section>, s: Section, lines: seq<string>, last: string)
    requires CleanSections(ss) && CleanSection(s)
    requires [s.header] + s.lines == lines + [last] && last != ""
    ensures ReadSections(LinesText(SectionLines(ss)) + (LinesText(lines) + last)) == ss + [s]
  {
    var before := SectionLines(ss);
    CleanSectionLines(ss);
    SectionLinesOne(s);
    CleanSectionLines([s]);
    forall k | 0 <= k < |before + lines| ensures CleanLine((before + lines)[k]) {
      if k >= |before| {
        assert lines[k - |before|] == SectionLines([s])[k - |before|];
      }
    }
    assert last == SectionLines([s])[|lines|];
    LinesTextConcat(before, lines);
    ConcatAssociative(LinesText(before), LinesText(lines), last);
    SplitLinesText(before + lines, last);
    SectionLinesConcat(ss, [s]);
    ConcatAssociative(before, lines, [last]);
    GroupSectionLines(ss + [s]);
  }

  const NULL_LINES: seq<string> := ["[Output]", "    Name    null"]
  const NULL_LAST := "    Match   *"

  lemma NullOutputText()
    ensures LinesText(NULL_LINES) + NULL_LAST == NULL_OUTPUT
  {
    assert NULL_LINES[1..] == ["    Name    null"];
    assert NULL_LINES[1..][1..] == [];
    assert LinesText(NULL_LINES) == "[Output]" + ("\n" + ("    Name    null" + ("\n" + "")));
  }

  lemma NullOutputIsSection()
    ensures CleanSection(NULL_SECTION)
    ensures [NULL_SECTION.header] + NULL_SECTION.lines == NULL_LINES + [NULL_LAST]
  {
  }

  /** The text of the main configuration in terms of its sections. */
  lemma TextOfSections(service: Option<Service>, i: seq<Block>, f: seq<Block>, o: seq<Block>)
    requires BlocksText(i).Success? && BlocksText(f).Success? && BlocksText(o).Success?
    requires ServiceText(service) == LinesText(SectionLines(ServiceSections(service)))
    ensures ServiceText(service) + BlocksText(i).value + BlocksText(f).value + BlocksText(o).value
            == LinesText(SectionLines(AllSections(service, i, f, o)))
  {
    var si, sf, so := BlockSections(i), BlockSections(f), BlockSections(o);
    BlocksAreSections(i);
    BlocksAreSections(f);
    BlocksAreSections(o);
    SectionTextConcat(ServiceSections(service), si);
    SectionTextConcat(ServiceSections(service) + si, sf);
    SectionTextConcat(ServiceSections(service) + si + sf, so);
  }

  lemma AllSectionsClean(service: Option<Service>, i: seq<Block>, f: seq<Block>, o: seq<Block>)
    requires BlocksText(i).Success? && BlocksText(f).Success? && BlocksText(o).Success?
    requires CleanSections(ServiceSections(service)) && CleanBlocks(i) && CleanBlocks(f) && CleanBlocks(o)
    ensures CleanSections(AllSections(service, i, f, o))
  {
    CleanBlocksAreCleanSections(i);
    CleanBlocksAreCleanSections(f);
    CleanBlocksAreCleanSections(o);
  }

  /**
   The main configuration reads back as the service section (if set), one section per plugin that is
   set (inputs, filters, outputs; by name, then list and field order), and the null output exactly when
   there are inputs but no outputs.
   */
  lemma MainTextReadsBack(service: Option<Service>, inputs: seq<Named<InputSpec>>, filters: seq<Named<FilterSpec>>,
                          outputs: seq<Named<OutputSpec>>)
    requires MainText(service, inputs, filters, outputs).Success?
    requires NewlineFree(service, inputs, filters, outputs)
    ensures ReadSections(MainText(service, inputs, filters, outputs).value)
            == ExpectedSections(service, inputs, filters, outputs)
  {
    var i, f, o := InputBlocks(inputs), FilterBlocks(filters), OutputBlocks(outputs);
    ServiceIsClean(service);
    AllSectionsClean(service, i, f, o);
    TextOfSections(service, i, f, o);
    BlocksTextEmptyIff(i);
    BlocksTextEmptyIff(o);
    var ss := AllSections(service, i, f, o);
    if i != [] && o == [] {
      var text := ServiceText(service) + BlocksText(i).value + BlocksText(f).value;
      assert text + "" == text;
      NullOutputIsSection();
      NullOutputText();
      UnfinishedReadsBack(ss, NULL_SECTION, NULL_LINES, NULL_LAST);
    } else {
      SectionsReadBack(ss);
    }
  }

  function HeaderRank(header: string): int {
    if header == "[Service]" then 0
    else if header == "[Input]" then 1
    else if header == "[Filter]" then 2
    else if header == "[Output]" then 3
    else 4
  }

  /** The sections have these headers and no others, one group after the other. */
  ghost predicate InGroups(ss: seq<Section>) {
    && (forall i :: 0 <= i < |ss| ==> HeaderRank(ss[i].header) < 4)
    && (forall i, j :: 0 <= i < j < |ss| ==> HeaderRank(ss[i].header) <= HeaderRank(ss[j].header))
  }

  ghost predicate AllRanked(ss: seq<Section>, n: int) {
    forall i :: 0 <= i < |ss| ==> HeaderRank(ss[i].header) == n
  }

  lemma GroupFollows(ss: seq<Section>, more: seq<Section>, n: int)
    requires InGroups(ss) && AllRanked(more, n) && n < 4
    requires forall i :: 0 <= i < |ss| ==> HeaderRank(ss[i].header) <= n
    ensures InGroups(ss + more) && forall i :: 0 <= i < |ss + more| ==> HeaderRank((ss + more)[i].header) <= n
  {
  }

  lemma BlocksRanked(bs: seq<Block>, header: string)
    requires BlocksText(bs).Success? && AllHeaded(bs, header)
    ensures AllRanked(BlockSections(bs), HeaderRank(header))
    ensures BlockSections(bs) == [] <==> bs == []
  {
    SectionHeaders(bs);
  }

  /**
   The main configuration holds its service section first, then inputs, filters and outputs; it has an
   output whenever an input or an output plugin is set, and none otherwise.
   */
  lemma MainSectionsInGroups(service: Option<Service>, inputs: seq<Named<InputSpec>>, filters: seq<Named<FilterSpec>>,
                             outputs: seq<Named<OutputSpec>>)
    requires MainText(service, inputs, filters, outputs).Success?
    requires NewlineFree(service, inputs, filters, outputs)
    ensures var ss := ReadSections(MainText(service, inputs, filters, outputs).value);
            && InGroups(ss)
            && (Headed(ss, "[Service]") <==> service.Some?)
            && (Headed(ss, "[Output]") <==> InputBlocks(inputs) != [] || OutputBlocks(outputs) != [])
  {
    MainTextReadsBack(service, inputs, filters, outputs);
    var i, f, o := InputBlocks(inputs), FilterBlocks(filters), OutputBlocks(outputs);
    InputsHeaded(inputs);
    FiltersHeaded(filters);
    OutputsHeaded(outputs);
    BlocksRanked(i, "[Input]");
    BlocksRanked(f, "[Filter]");
    BlocksRanked(o, "[Output]");
    GroupsOfAll(service, i, f, o);
    var ss := ReadSections(MainText(service, inputs, filters, outputs).value);
    assert ss == ExpectedSections(service, inputs, filters, outputs);
    HeadedIffRanked(ss, "[Service]", 0);
    HeadedIffRanked(ss, "[Output]", 3);
  }

  ghost predicate Headed(ss: seq<Section>, header: string) {
    exists i :: 0 <= i < |ss| && ss[i].header == header
  }

  lemma HeadedIffRanked(ss: seq<Section>, header: string, n: int)
    requires (header == "[Service]" && n == 0) || (header == "[Output]" && n == 3)
    ensures Headed(ss, header) <==> HasRank(ss, n)
  {
    if HasRank(ss, n) {
      var i :| 0 <= i < |ss| && HeaderRank(ss[i].header) == n;
      assert ss[i].header == header;
    }
  }

  lemma GroupsOfAll(service: Option<Service>, i: seq<Block>, f: seq<Block>, o: seq<Block>)
    requires BlocksText(i).Success? && BlocksText(f).Success? && BlocksText(o).Success?
    requires AllRanked(BlockSections(i), 1) && AllRanked(BlockSections(f), 2) && AllRanked(BlockSections(o), 3)
    requires BlockSections(o) == [] <==> o == []
    ensures var all := AllSections(service, i, f, o);
            var ss := if i != [] && o == [] then all + [NULL_SECTION] else all;
            && InGroups(ss)
            && (HasRank(ss, 0) <==> service.Some?)
            && (HasRank(ss, 3) <==> i != [] || o != [])
  {
    var a := ServiceSections(service);
    var b := a + BlockSections(i);
    var c := b + BlockSections(f);
    var d := c + BlockSections(o);
    GroupFollows(a, BlockSections(i), 1);
    GroupFollows(b, BlockSections(f), 2);
    GroupFollows(c, BlockSections(o), 3);
    GroupFollows(d, [NULL_SECTION], 3);
    RankFollows(a, BlockSections(i), 1);
    RankFollows(b, BlockSections(f), 2);
    RankFollows(c, BlockSections(o), 3);
    RankFollows(d, [NULL_SECTION], 3);
    assert HasRank(a, 0) <==> service.Some? by {
      assert service.Some? ==> HeaderRank(a[0].header) == 0;
    }
    assert !HasRank(a, 3);
  }

  /** Some section belongs to group n. */
  ghost predicate HasRank(ss: seq<Section>, n: int) {
    exists i :: 0 <= i < |ss| && HeaderRank(ss[i].header) == n
  }

  lemma RankFollows(ss: seq<Section>, more: seq<Section>, m: int)
    requires AllRanked(more, m)
    ensures forall n :: HasRank(ss + more, n) <==> HasRank(ss, n) || (n == m && more != [])
  {
    forall n ensures HasRank(ss + more, n) <==> HasRank(ss, n) || (n == m && more != []) {
      if HasRank(ss, n) {
        var i :| 0 <= i < |ss| && HeaderRank(ss[i].header) == n;
        assert (ss + more)[i] == ss[i];
      }
      if n == m && more != [] {
        assert (ss + more)[|ss|] == more[0];
      }
    }
  }

  /** The parsers file reads back as one section per parser format that is set. */
  lemma ParserTextReadsBack(items: seq<Named<ParserSpec>>)
    requires BlocksText(ParserBlocks(items)).Success? && CleanBlocks(ParserBlocks(items))
    ensures ReadSections(BlocksText(ParserBlocks(items)).value) == BlockSections(ParserBlocks(items))
  {
    BlocksAreSections(ParserBlocks(items));
    CleanBlocksAreCleanSections(ParserBlocks(items));
    SectionsReadBack(BlockSections(ParserBlocks(items)));
  }
}
