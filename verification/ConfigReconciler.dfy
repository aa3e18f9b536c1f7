/** The reconciler that renders every FluentBitConfig of a namespace into a Secret. */
module ConfigReconciler {
  import opened Common
  import opened Sorting
  import opened Sections
  import opened ConfigRender
  import opened PluginLists
  import opened MainConfig
  import opened Scripts
  import opened SecretStore

  /** Converting a label selector and listing what it selects. */
  datatype Query<+T> = Query(selector: Result<(), string>, found: Result<seq<Named<T>>, string>) {
    const items: Result<seq<Named<T>>, string> := if selector.Failure? then Failure(selector.error) else found
  }

  /** A FluentBitConfig with what the API server answers while it is reconciled. */
  datatype Config = Config(
    name: string, service: Option<Service>,
    inputQuery: Query<InputSpec>, filterQuery: Query<FilterSpec>, outputQuery: Query<OutputSpec>,
    parserQuery: Query<ParserSpec>,
    owned: Result<(), string>, answers: Answers)
  {
    const inputs := inputQuery.items
    const filters := filterQuery.items
    const outputs := outputQuery.items
    const parsers := parserQuery.items
  }

  datatype ListError = NoneFound | ListFailed(error: string)

  /** gzip; None when compression is off. */
  type Compressor = Option<string -> Result<string, string>>

  function Compressed(z: Compressor, text: string): Result<string, string> {
    if z.None? then Success(text) else z.value(text)
  }

  /** One way to sort the lists and render them. */
  datatype Rendering = Rendering(
    inputs: seq<Named<InputSpec>>, filters: seq<Named<FilterSpec>>, outputs: seq<Named<OutputSpec>>,
    parsers: seq<Named<ParserSpec>>, scripts: seq<Script>)

  ghost predicate Sorts(c: Config, r: Rendering) {
    && c.inputs.Success? && c.filters.Success? && c.outputs.Success? && c.parsers.Success?
    && SortedPermutation(r.inputs, c.inputs.value) && SortedPermutation(r.filters, c.filters.value)
    && SortedPermutation(r.outputs, c.outputs.value) && SortedPermutation(r.parsers, c.parsers.value)
  }

  /** Every stage of the rendering succeeds. */
  ghost predicate Renders(c: Config, z: Compressor, r: Rendering) {
    && Sorts(c, r)
    && MainText(c.service, r.inputs, r.filters, r.outputs).Success?
    && BlocksText(ParserBlocks(r.parsers)).Success?
    && Compressed(z, MainText(c.service, r.inputs, r.filters, r.outputs).value).Success?
    && FilterScripts(r.filters).Success?
    && SortedPermutation(r.scripts, FilterScripts(r.filters).value)
    && c.owned.Success?
  }

  function RenderedData(c: Config, z: Compressor, r: Rendering): Data
    requires Renders(c, z, r)
  {
    SecretData(Compressed(z, MainText(c.service, r.inputs, r.filters, r.outputs).value).value,
               BlocksText(ParserBlocks(r.parsers)).value, r.scripts)
  }

  /**
   What is stored: the main configuration, compressed exactly when compression is on, the parsers file as it
   is, and under the key of a script that no later one replaces its content.
   */
  lemma StoredData(c: Config, z: Compressor, r: Rendering)
    requires Renders(c, z, r)
    ensures var data, main := RenderedData(c, z, r), MainText(c.service, r.inputs, r.filters, r.outputs).value;
            && (!NamesScript(r.scripts, "fluent-bit.conf") ==>
                  && "fluent-bit.conf" in data
                  && if z.None? then data["fluent-bit.conf"] == main
                     else Success(data["fluent-bit.conf"]) == z.value(main))
            && (!NamesScript(r.scripts, "parsers.conf") ==>
                  && "parsers.conf" in data && Success(data["parsers.conf"]) == BlocksText(ParserBlocks(r.parsers)))
            && (forall i: nat :: LastOfName(r.scripts, i) ==>
                  r.scripts[i].name in data && data[r.scripts[i].name] == r.scripts[i].spec)
  {
    var main := Compressed(z, MainText(c.service, r.inputs, r.filters, r.outputs).value).value;
    var parsers := BlocksText(ParserBlocks(r.parsers)).value;
    SecretDataKeys(main, parsers, r.scripts);
    forall i: nat | LastOfName(r.scripts, i)
      ensures r.scripts[i].name in RenderedData(c, z, r)
      ensures RenderedData(c, z, r)[r.scripts[i].name] == r.scripts[i].spec
    {
      OverlayValue(map[MAIN_KEY := main, PARSERS_KEY := parsers], r.scripts, i);
    }
  }

  ghost predicate CanRender(c: Config, z: Compressor) {
    exists r :: Renders(c, z, r)
  }

  /** The data that may be stored for the config: some rendering of it. */
  ghost predicate IsRendering(c: Config, z: Compressor, data: Data) {
    exists r :: Renders(c, z, r) && data == RenderedData(c, z, r)
  }

  /** Names within a list are distinct, as the API server keeps them within a namespace. */
  ghost predicate ApiLists(c: Config) {
    && (c.inputs.Success? ==> DistinctNames(c.inputs.value))
    && (c.filters.Success? ==> DistinctNames(c.filters.value))
    && (c.outputs.Success? ==> DistinctNames(c.outputs.value))
    && (c.parsers.Success? ==> DistinctNames(c.parsers.value))
  }

  /** There is only one way to sort such lists. */
  lemma SortsUnique(c: Config, r: Rendering, r': Rendering)
    requires ApiLists(c) && Sorts(c, r) && Sorts(c, r')
    ensures r.inputs == r'.inputs && r.filters == r'.filters && r.outputs == r'.outputs && r.parsers == r'.parsers
  {
    SortsAgree(c.inputs.value, c.inputs.value, r.inputs, r'.inputs);
    SortsAgree(c.filters.value, c.filters.value, r.filters, r'.filters);
    SortsAgree(c.outputs.value, c.outputs.value, r.outputs, r'.outputs);
    SortsAgree(c.parsers.value, c.parsers.value, r.parsers, r'.parsers);
  }

  /** The Secret is fully determined unless two selected scripts put different contents under one key. */
  lemma RenderingDetermined(c: Config, z: Compressor, r: Rendering, r': Rendering)
    requires ApiLists(c) && Renders(c, z, r) && Renders(c, z, r')
    requires NoConflicts(FilterScripts(r.filters).value)
    ensures RenderedData(c, z, r) == RenderedData(c, z, r')
  {
    SortsUnique(c, r, r');
    OverlaysAgree(
      map[MAIN_KEY := Compressed(z, MainText(c.service, r.inputs, r.filters, r.outputs).value).value,
          PARSERS_KEY := BlocksText(ParserBlocks(r.parsers)).value],
      FilterScripts(r.filters).value, r.scripts, r'.scripts);
  }

  /** One rendering that fails shows that none succeeds. */
  lemma CannotRender(c: Config, z: Compressor, r: Rendering)
    requires ApiLists(c) && Sorts(c, r)
    requires var main := MainText(c.service, r.inputs, r.filters, r.outputs);
             || main.Failure? || BlocksText(ParserBlocks(r.parsers)).Failure?
             || Compressed(z, main.value).Failure? || FilterScripts(r.filters).Failure? || c.owned.Failure?
    ensures !CanRender(c, z)
  {
    if CanRender(c, z) {
      var r' :| Renders(c, z, r');
      SortsUnique(c, r, r');
    }
  }

  /** The first stage that fails for the sorted lists gives the error. */
  ghost predicate StageFails(c: Config, z: Compressor, r: Rendering, e: string)
    requires Sorts(c, r)
  {
    var main, parsers := MainText(c.service, r.inputs, r.filters, r.outputs), BlocksText(ParserBlocks(r.parsers));
    if main.Failure? then main.error == e
    else if parsers.Failure? then parsers.error == e
    else if Compressed(z, main.value).Failure? then Compressed(z, main.value).error == e
    else if FilterScripts(r.filters).Failure? then FilterScripts(r.filters).error == e
    else c.owned == Failure(e)
  }

  /** The error of a config that cannot be rendered: of the first listing that fails, else of the first stage. */
  ghost predicate FailsWith(c: Config, z: Compressor, e: string) {
    if c.inputs.Failure? then c.inputs.error == e
    else if c.filters.Failure? then c.filters.error == e
    else if c.outputs.Failure? then c.outputs.error == e
    else if c.parsers.Failure? then c.parsers.error == e
    else exists r :: Sorts(c, r) && StageFails(c, z, r, e)
  }

  lemma SomeSort(c: Config) returns (g: Rendering)
    requires c.inputs.Success? && c.filters.Success? && c.outputs.Success? && c.parsers.Success?
    ensures Sorts(c, g)
  {
    var i := SortExists(c.inputs.value);
    var f := SortExists(c.filters.value);
    var o := SortExists(c.outputs.value);
    var p := SortExists(c.parsers.value);
    g := Rendering(i, f, o, p, []);
  }

  // ---------- the loop ----------

  /** Which data may be stored for a config; the loop does not depend on how configs are rendered. */
  type Renderer = (Config, Data) -> bool

  ghost function RendererOf(z: Compressor): Renderer {
    (c, data) => IsRendering(c, z, data)
  }

  function VisitOf(c: Config, data: Data): Visit {
    Visit(c.name, data, c.answers)
  }

  /** A visit to the config with a rendering of it. */
  ghost predicate Fits(c: Config, renders: Renderer, v: Visit) {
    v == VisitOf(c, v.data) && renders(c, v.data)
  }

  /** The visits are to the first configs, in order. */
  ghost predicate VisitsOf(configs: seq<Config>, renders: Renderer, visits: seq<Visit>) {
    |visits| <= |configs| && forall j :: 0 <= j < |visits| ==> Fits(configs[j], renders, visits[j])
  }

  predicate AllSucceed(visits: seq<Visit>, s: Store) {
    forall j :: 0 <= j < |visits| ==> VisitError(visits[j], StoreAfter(visits[..j], s)).None?
  }

  /** The successful visits, and the last one if it failed. */
  function AllVisits(done: seq<Visit>, failed: Option<Visit>): seq<Visit> {
    if failed.Some? then done + [failed.value] else done
  }

  /**
   The configs before the one the loop stopped at were stored; that one, if there is an error, could not be
   rendered, or was visited too and failed.
   */
  ghost predicate StoppedAt(configs: seq<Config>, renders: Renderer, err: Option<string>,
                            done: seq<Visit>, failed: Option<Visit>, s: Store)
  {
    && VisitsOf(configs, renders, done) && AllSucceed(done, s)
    && (err.None? <==> |done| == |configs|)
    && (failed.None? && err.Some? ==> forall data :: !renders(configs[|done|], data))
    && (failed.Some? ==>
          && err.Some? && Fits(configs[|done|], renders, failed.value)
          && err == VisitError(failed.value, StoreAfter(done, s)))
  }

  lemma VisitNext(configs: seq<Config>, renders: Renderer, visits: seq<Visit>, v: Visit)
    requires |visits| < |configs| && VisitsOf(configs, renders, visits) && Fits(configs[|visits|], renders, v)
    ensures VisitsOf(configs, renders, visits + [v])
  {
    forall j | 0 <= j < |visits| + 1 ensures Fits(configs[j], renders, (visits + [v])[j]) {
      if j < |visits| {
        assert Fits(configs[j], renders, visits[j]);
      }
    }
  }

  lemma StoreNext(visits: seq<Visit>, v: Visit, s: Store)
    ensures StoreAfter(visits + [v], s) == AfterVisit(v, StoreAfter(visits, s))
  {
    assert (visits + [v])[..|visits|] == visits;
  }

  lemma SucceedNext(visits: seq<Visit>, v: Visit, s: Store)
    requires AllSucceed(visits, s) && VisitError(v, StoreAfter(visits, s)).None?
    ensures AllSucceed(visits + [v], s)
  {
    forall j | 0 <= j < |visits| + 1
      ensures VisitError((visits + [v])[j], StoreAfter((visits + [v])[..j], s)).None?
    {
      assert (visits + [v])[..j] == if j < |visits| then visits[..j] else visits;
    }
  }

  // ---------- what the loop leaves behind when nobody else acts ----------

  /** The config's Secret is there, owned by it, with a rendering of it as data. */
  ghost predicate IsFresh(c: Config, renders: Renderer, s: Store) {
    c.name in s && s[c.name].owner == c.name && renders(c, s[c.name].data)
  }

  /** The write took effect, but the reconciler was told it failed. */
  predicate AnswerLost(c: Config) {
    c.answers.reply.Unacknowledged? && c.answers.reply.applied
  }

  predicate DistinctConfigs(configs: seq<Config>) {
    forall i, j :: 0 <= i < j < |configs| ==> configs[i].name != configs[j].name
  }

  /** Nobody else edits Secrets while these configs are reconciled. */
  predicate NobodyElse(configs: seq<Config>) {
    forall j :: 0 <= j < |configs| ==>
                  configs[j].answers.beforeRead == map[] && configs[j].answers.afterRead == map[]
  }

  lemma VisitsAreQuiet(configs: seq<Config>, renders: Renderer, visits: seq<Visit>)
    requires VisitsOf(configs, renders, visits) && DistinctConfigs(configs) && NobodyElse(configs)
    ensures Quiet(visits) && DistinctVisits(visits)
    ensures forall j :: 0 <= j < |visits| ==> visits[j].name == configs[j].name
    ensures forall j :: 0 <= j < |visits| ==> visits[j].answers == configs[j].answers
  {
    assert forall j :: 0 <= j < |visits| ==> Fits(configs[j], renders, visits[j]);
  }

  lemma AllVisitsFit(configs: seq<Config>, renders: Renderer, err: Option<string>,
                     done: seq<Visit>, failed: Option<Visit>, s: Store)
    requires StoppedAt(configs, renders, err, done, failed, s)
    ensures VisitsOf(configs, renders, AllVisits(done, failed))
  {
    if failed.Some? {
      VisitNext(configs, renders, done, failed.value);
    }
  }

  /** With nobody else around, exactly the configs before the one the loop stopped at have fresh Secrets ... */
  lemma FreshBeforeStop(configs: seq<Config>, renders: Renderer, err: Option<string>,
                        done: seq<Visit>, failed: Option<Visit>, s: Store, j: nat)
    requires StoppedAt(configs, renders, err, done, failed, s) && DistinctConfigs(configs) && NobodyElse(configs)
    requires j < |done|
    ensures IsFresh(configs[j], renders, StoreAfter(AllVisits(done, failed), s))
  {
    var visits := AllVisits(done, failed);
    AllVisitsFit(configs, renders, err, done, failed, s);
    VisitsAreQuiet(configs, renders, visits);
    QuietRun(visits, s);
    assert visits[..j] == done[..j] && visits[j] == done[j];
    assert IsRight(visits[j], StoreAfter(visits, s));
    assert Fits(configs[j], renders, done[j]);
  }

  /**
   ... and every other Secret is untouched, that config's own included unless its write took effect and
   only the answer was lost.
   */
  lemma UntouchedFromStop(configs: seq<Config>, renders: Renderer, err: Option<string>,
                          done: seq<Visit>, failed: Option<Visit>, s: Store, name: string)
    requires StoppedAt(configs, renders, err, done, failed, s) && DistinctConfigs(configs) && NobodyElse(configs)
    requires forall j :: 0 <= j < |done| ==> configs[j].name != name
    requires failed.Some? && AnswerLost(configs[|done|]) ==> configs[|done|].name != name
    ensures Lookup(StoreAfter(AllVisits(done, failed), s), name) == Lookup(s, name)
  {
    var visits := AllVisits(done, failed);
    AllVisitsFit(configs, renders, err, done, failed, s);
    VisitsAreQuiet(configs, renders, visits);
    QuietRun(visits, s);
    forall j | 0 <= j < |visits| && visits[j].name == name
      ensures !TakesEffect(visits[j], StoreAfter(visits[..j], s))
    {
      assert j == |done| && visits[..j] == done;
    }
    assert NeverWritten(visits, s, name);
  }

  class Reconciler {
    var store: Store
    const compress: Compressor

    constructor (store: Store, compress: Compressor)
      ensures this.store == store && this.compress == compress
    {
      this.store, this.compress := store, compress;
    }

    /** The data of the config's Secret, or an error exactly when no rendering exists. */
    method RenderConfig(c: Config) returns (r: Result<Data, string>)
      requires ApiLists(c)
      ensures r.Success? ==> IsRendering(c, compress, r.value)
      ensures r.Failure? <==> !CanRender(c, compress)
      ensures r.Failure? ==> FailsWith(c, compress, r.error)
    {
      if c.inputs.Failure? {
        return Failure(c.inputs.error);
      }
      if c.filters.Failure? {
        return Failure(c.filters.error);
      }
      if c.outputs.Failure? {
        return Failure(c.outputs.error);
      }
      if c.parsers.Failure? {
        return Failure(c.parsers.error);
      }
      r := RenderLists(c);
    }

    method RenderLists(c: Config) returns (r: Result<Data, string>)
      requires ApiLists(c)
      requires c.inputs.Success? && c.filters.Success? && c.outputs.Success? && c.parsers.Success?
      ensures r.Success? ==> IsRendering(c, compress, r.value)
      ensures r.Failure? <==> !CanRender(c, compress)
      ensures r.Failure? ==> FailsWith(c, compress, r.error)
    {
      ghost var g := SomeSort(c);
      var filters := new FilterList(c.filters.value);
      var main := RenderMain(c, filters, g);
      if main.Failure? {
        CannotRender(c, compress, g);
        return Failure(main.error);
      }
      var parsers := new ParserList(c.parsers.value);
      var parserText := parsers.Load();
      SortsAgree(c.parsers.value, c.parsers.value, parsers.items, g.parsers);
      if parserText.Failure? {
        CannotRender(c, compress, g);
        return Failure(parserText.error);
      }
      var mainData := Compressed(compress, main.value);
      if mainData.Failure? {
        CannotRender(c, compress, g);
        return Failure(mainData.error);
      }
      var scripts := RenderLuaScript(filters);
      if scripts.Failure? {
        CannotRender(c, compress, g);
        return Failure(scripts.error);
      }
      if c.owned.Failure? {
        CannotRender(c, compress, g);
        return Failure(c.owned.error);
      }
      g := g.(scripts := scripts.value);
      assert Renders(c, compress, g);
      var data := BuildData(mainData.value, parserText.value, scripts.value);
      return Success(data);
    }

    /** The main configuration of the only sorted order; on success the filters are left sorted. */
    method RenderMain(c: Config, filters: FilterList, ghost g: Rendering) returns (main: Result<string, string>)
      requires ApiLists(c) && Sorts(c, g) && filters.items == c.filters.value
      modifies filters
      ensures main == MainText(c.service, g.inputs, g.filters, g.outputs)
      ensures main.Success? ==> filters.items == g.filters
    {
      var inputs := new InputList(c.inputs.value);
      var outputs := new OutputList(c.outputs.value);
      main := RenderMainConfig(c.service, inputs, filters, outputs);
      if main.Success? {
        SortsAgree(c.filters.value, c.filters.value, filters.items, g.filters);
      }
    }

    method BuildData(main: string, parsers: string, scripts: seq<Script>) returns (data: Data)
      ensures data == SecretData(main, parsers, scripts)
    {
      data := map[MAIN_KEY := main, PARSERS_KEY := parsers];
      ghost var base := data;
      for i := 0 to |scripts|
        invariant data == Overlay(base, scripts[..i])
      {
        assert scripts[..i + 1][..i] == scripts[..i];
        data := data[scripts[i].name := scripts[i].spec];
      }
      assert scripts[..|scripts|] == scripts;
    }

    /** Others edit, create and delete Secrets. */
    method Others(e: Edits)
      modifies this`store
      ensures store == Edited(old(store), e)
    {
      store := Edited(store, e);
    }

    /** Reads the Secret, then creates it or sends the merge patch; others act before each of the two calls. */
    method CreateOrPatch(c: Config, data: Data) returns (err: Option<string>)
      modifies this`store
      ensures store == AfterVisit(VisitOf(c, data), old(store))
      ensures err == VisitError(VisitOf(c, data), old(store))
    {
      Others(c.answers.beforeRead);
      var seen := Lookup(store, c.name);
      Others(c.answers.afterRead);
      if c.answers.readFails.Some? {
        return c.answers.readFails;
      }
      var wanted := Secret(data, c.name, if seen.Some? then seen.value.metadata else "");
      if seen == Some(wanted) {
        return None;
      }
      var reply := c.answers.reply;
      if reply.Refused? || (reply.Unacknowledged? && !reply.applied) {
        return Some(reply.error);
      }
      if seen.None? && c.name in store {
        return Some("already exists");
      }
      if seen.Some? && c.name !in store {
        return Some("not found");
      }
      store := store[c.name := if seen.None? then wanted else Patched(store[c.name], seen.value, wanted)];
      err := if reply.Unacknowledged? then Some(reply.error) else None;
    }

    /**
     Reconciles the configs in list order and stops at the first that cannot be rendered or stored. The
     store is exactly what visits to the configs so far, in order and each with a rendering of its own
     config, leave of it, whatever others do in between.
     */
    method ReconcileAll(configs: seq<Config>)
      returns (err: Option<string>, ghost done: seq<Visit>, ghost failed: Option<Visit>)
      requires forall i :: 0 <= i < |configs| ==> ApiLists(configs[i])
      modifies this`store
      ensures StoppedAt(configs, RendererOf(compress), err, done, failed, old(store))
      ensures store == StoreAfter(AllVisits(done, failed), old(store))
      ensures failed.None? && err.Some? ==> FailsWith(configs[|done|], compress, err.value)
    {
      done, failed := [], None;
      ghost var s0 := store;
      for i := 0 to |configs|
        invariant i == |done| && failed.None?
        invariant VisitsOf(configs, RendererOf(compress), done) && AllSucceed(done, s0)
        invariant store == StoreAfter(done, s0)
      {
        var data := RenderConfig(configs[i]);
        if data.Failure? {
          err := Some(data.error);
          return;
        }
        err := CreateOrPatch(configs[i], data.value);
        ghost var v := VisitOf(configs[i], data.value);
        StoreNext(done, v, s0);
        if err.Some? {
          failed := Some(v);
          return;
        }
        VisitNext(configs, RendererOf(compress), done, v);
        SucceedNext(done, v, s0);
        done := done + [v];
      }
      err := None;
    }

    /** Lists the configs of the namespace first; a namespace without any is no error. */
    method Reconcile(listed: Result<seq<Config>, ListError>)
      returns (err: Option<string>, ghost done: seq<Visit>, ghost failed: Option<Visit>)
      requires listed.Success? ==> forall i :: 0 <= i < |listed.value| ==> ApiLists(listed.value[i])
      modifies this`store
      ensures listed.Success? ==> StoppedAt(listed.value, RendererOf(compress), err, done, failed, old(store))
      ensures listed.Success? ==> store == StoreAfter(AllVisits(done, failed), old(store))
      ensures listed.Success? && failed.None? && err.Some? ==> FailsWith(listed.value[|done|], compress, err.value)
      ensures listed.Failure? ==> store == old(store) && (err.None? <==> listed.error.NoneFound?)
    {
      if listed.Failure? {
        err := if listed.error.NoneFound? then None else Some(listed.error.error);
        return err, [], None;
      }
      err, done, failed := ReconcileAll(listed.value);
    }
  }
}
