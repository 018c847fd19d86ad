/** The `mongodb-atlas` tool: binding a configuration to a MongoDB source, the
    manifests fixed at bind time, and invocation as a find whose filter is the
    stored query with the call's parameters written over it. */
module MongoTool {

  import opened Results
  import opened Documents
  import opened QueryBinder
  import opened Cursors

  /** The kind tag every tool of this package carries. */
  const ToolKind: string := "mongodb-atlas"

  /** A Go `map[string]any` value. Go maps are references: copying a struct
      that holds one copies the reference, and writes through any copy are seen
      through all of them. */
  class QueryMap {
    var entries: Document

    constructor (initial: Document)
      ensures entries == initial
    {
      entries := initial;
    }
  }

  /** One declared parameter; its validation and projections belong to the
      host's parameter package and are not modelled. */
  datatype Parameter = Parameter(name: string, typeName: string, description: string)

  type Parameters = seq<Parameter>

  /** The tool's configuration entry as loaded from the tools file. */
  datatype Config = Config(
    name: string,
    kind: string,
    source: string,
    description: string,
    collection: string,
    query: QueryMap,
    authRequired: seq<string>,
    parameters: Parameters)

  /** Identity of a connected driver client; the connection itself is not modelled. */
  datatype Client = Client(id: nat)

  /** A configured source as the host hands it over: a MongoDB source, or a
      source of some other kind. */
  datatype Source = MongoSource(client: Client, databaseName: string) | OtherSource(kind: string)

  /** The client-facing manifest. */
  datatype Manifest = Manifest(description: string, parameters: Value, authRequired: seq<string>)

  /** The MCP tool description. */
  datatype McpManifest = McpManifest(name: string, description: string, inputSchema: Value)

  /** The parameter list's two projections, computed by the host's parameter
      package and taken here as given. */
  datatype Projections = Projections(manifest: Parameters -> Value, mcpSchema: Parameters -> Value)

  /** A bound tool. */
  datatype Tool = Tool(
    name: string,
    kind: string,
    authRequired: seq<string>,
    parameters: Parameters,
    client: Client,
    database: string,
    collection: string,
    query: QueryMap,
    manifest: Manifest,
    mcpManifest: McpManifest)

  /** Why a configuration could not be bound. */
  datatype BindError = NoSuchSource(source: string) | IncompatibleSource(toolKind: string)

  /** The kind a configuration reports: always the package constant. */
  function ToolConfigKind(cfg: Config): string
  {
    ToolKind
  }

  /** Every field of `t` comes from the configuration or the source it was
      bound to; the kind is the package constant, whatever the configuration
      said; the query is the configuration's own map, not a copy. */
  predicate BoundFrom(t: Tool, cfg: Config, src: Source, project: Projections)
    requires src.MongoSource?
  {
    && t.name == cfg.name
    && t.kind == ToolKind
    && t.parameters == cfg.parameters
    && t.collection == cfg.collection
    && t.query == cfg.query
    && t.authRequired == cfg.authRequired
    && t.client == src.client
    && t.database == src.databaseName
    && t.manifest == Manifest(cfg.description, project.manifest(cfg.parameters), cfg.authRequired)
    && t.mcpManifest == McpManifest(cfg.name, cfg.description, project.mcpSchema(cfg.parameters))
  }

  /** Binds a configuration to the named source. A missing source and a
      source of another kind are errors and give no tool; otherwise the tool
      is built from the configuration and the source. */
  function Initialize(cfg: Config, srcs: map<string, Source>, project: Projections): (r: Result<Tool, BindError>)
    ensures cfg.source !in srcs ==> r == Failure(NoSuchSource(cfg.source))
    ensures cfg.source in srcs && !srcs[cfg.source].MongoSource? ==> r == Failure(IncompatibleSource(ToolKind))
    ensures r.Success? <==> cfg.source in srcs && srcs[cfg.source].MongoSource?
    ensures r.Success? ==> BoundFrom(r.value, cfg, srcs[cfg.source], project)
  {
    if cfg.source !in srcs then
      Failure(NoSuchSource(cfg.source))
    else
      match srcs[cfg.source]
      case OtherSource(_) => Failure(IncompatibleSource(ToolKind))
      case MongoSource(client, database) =>
        var mcp := McpManifest(cfg.name, cfg.description, project.mcpSchema(cfg.parameters));
        Success(Tool(
          name := cfg.name,
          kind := ToolKind,
          authRequired := cfg.authRequired,
          parameters := cfg.parameters,
          client := client,
          database := database,
          collection := cfg.collection,
          query := cfg.query,
          manifest := Manifest(cfg.description, project.manifest(cfg.parameters), cfg.authRequired),
          mcpManifest := mcp))
  }

  /** The tool's kind does not depend on the kind written in its configuration. */
  lemma KindIgnoresConfiguredKind(cfg: Config, otherKind: string, srcs: map<string, Source>, project: Projections)
    requires Initialize(cfg, srcs, project).Success?
    ensures Initialize(cfg.(kind := otherKind), srcs, project) == Initialize(cfg, srcs, project)
    ensures Initialize(cfg, srcs, project).value.kind == ToolConfigKind(cfg)
  {
  }

  function ManifestOf(t: Tool): Manifest
  {
    t.manifest
  }

  function McpManifestOf(t: Tool): McpManifest
  {
    t.mcpManifest
  }

  /** Both manifests are the values fixed when the tool was bound: the
      configured description and auth list, the MCP name is the tool's name,
      and the parameter projections are those of the configured parameters. */
  lemma ManifestsFixedAtBind(cfg: Config, srcs: map<string, Source>, project: Projections)
    requires Initialize(cfg, srcs, project).Success?
    ensures var t := Initialize(cfg, srcs, project).value;
      && ManifestOf(t).description == cfg.description
      && ManifestOf(t).authRequired == cfg.authRequired
      && ManifestOf(t).parameters == project.manifest(cfg.parameters)
      && McpManifestOf(t).name == cfg.name
      && McpManifestOf(t).description == cfg.description
      && McpManifestOf(t).inputSchema == project.mcpSchema(cfg.parameters)
  {
  }

  /** The host's authorization check, applied to the tool's required services. */
  function Authorized(t: Tool, verified: seq<string>, isAuthorized: (seq<string>, seq<string>) -> bool): bool
  {
    isAuthorized(t.authRequired, verified)
  }

  /** The host's parameter parser, applied to the tool's declared parameters;
      a success is the validated values' map view. */
  function ParseParams(
    t: Tool,
    data: Document,
    claims: map<string, Document>,
    parse: (Parameters, Document, map<string, Document>) -> Result<Document, string>): Result<Document, string>
  {
    parse(t.parameters, data, claims)
  }

  /** The delegated checks see exactly what the configuration declared. */
  lemma DelegatesSeeConfiguredFields(
    cfg: Config, srcs: map<string, Source>, project: Projections,
    verified: seq<string>, isAuthorized: (seq<string>, seq<string>) -> bool,
    data: Document, claims: map<string, Document>,
    parse: (Parameters, Document, map<string, Document>) -> Result<Document, string>)
    requires Initialize(cfg, srcs, project).Success?
    ensures var t := Initialize(cfg, srcs, project).value;
      && Authorized(t, verified, isAuthorized) == isAuthorized(cfg.authRequired, verified)
      && ParseParams(t, data, claims, parse) == parse(cfg.parameters, data, claims)
  {
  }

  /** The driver: a find against `database.collection` with a filter. */
  type Store = (string, string, Document) -> FindOutcome

  /** One call's effect seen as values: the stored query after the call, and
      what the call returns. */
  datatype Invocation = Invocation(stored: Document, result: Result<seq<Document>, InvokeError>)

  /** A call of `Invoke` on a tool whose stored query currently holds
      `template`. The overlay is written into the stored query itself, so the
      filter sent to the store and the stored query after the call are the same
      map. */
  function Call(t: Tool, template: Document, params: Document, store: Store): (r: Invocation)
    ensures r.stored.Keys == template.Keys + params.Keys
    ensures forall k :: k in params ==> r.stored[k] == params[k]
    ensures forall k :: k in template && k !in params ==> r.stored[k] == template[k]
    ensures r.result == Gather(store(t.database, t.collection, r.stored))
  {
    var filter := Overlay(template, params);
    Invocation(filter, Gather(store(t.database, t.collection, filter)))
  }

  /** The stored query is never restored: a key written by one call stays in
      the filter of every later call that does not overwrite it. */
  lemma EarlierParametersPersist(t: Tool, template: Document, p1: Document, p2: Document, store: Store)
    ensures var first := Call(t, template, p1, store);
      var second := Call(t, first.stored, p2, store);
      && second.stored.Keys == template.Keys + p1.Keys + p2.Keys
      && (forall k :: k in p1 && k !in p2 ==> second.stored[k] == p1[k])
      && second.result == Gather(store(t.database, t.collection, second.stored))
  {
  }

  /** Copy-on-overlay does not hold: after a call with `{"_id": 1}`, a call
      with no parameters on a tool whose template was empty still filters on
      `_id`. */
  lemma SecondCallSeesFirstCallsFilter(t: Tool, store: Store)
    ensures var first := Call(t, map[], map["_id" := Int(1)], store);
      var second := Call(t, first.stored, map[], store);
      && second.stored == map["_id" := Int(1)]
      && second.stored != Overlay(map[], map[])
  {
    var p1: Document := map["_id" := Int(1)];
    var first := Call(t, map[], p1, store);
    assert first.stored == p1;
    assert "_id" !in Overlay(map[], map[]);
  }

  /** `Invoke`: the parameters are written into the tool's query map in place,
      one key at a time in whatever order the runtime picks (the filter is that
      map, not a copy), the store is queried with it, and
      the cursor is drained. Nothing but the query map changes; the manifests
      live in the tool value and cannot. */
  method Invoke(t: Tool, params: Document, store: Store) returns (r: Result<seq<Document>, InvokeError>)
    modifies t.query
    ensures t.query.entries == Overlay(old(t.query.entries), params)
    ensures r == Gather(store(t.database, t.collection, t.query.entries))
    ensures Invocation(t.query.entries, r) == Call(t, old(t.query.entries), params, store)
  {
    var filter := t.query;
    ghost var template := filter.entries;
    var pending := params.Keys;
    while pending != {}
      invariant pending <= params.Keys
      invariant filter.entries == template + Restrict(params, params.Keys - pending)
      decreases pending
    {
      var key :| key in pending;
      filter.entries := filter.entries[key := params[key]];
      pending := pending - {key};
    }
    assert Restrict(params, params.Keys - pending) == params;
    var outcome := store(t.database, t.collection, filter.entries);
    r := Gather(outcome);
  }

  /** Two consecutive calls of `Invoke` on the same tool: the second call's
      filter is the stored map the first call left behind, so a key the first
      call wrote and the second did not is still in the filter the second find
      receives. */
  method InvokeTwice(t: Tool, p1: Document, p2: Document, store: Store)
    returns (r1: Result<seq<Document>, InvokeError>, r2: Result<seq<Document>, InvokeError>)
    modifies t.query
    ensures t.query.entries.Keys == old(t.query.entries).Keys + p1.Keys + p2.Keys
    ensures forall k :: k in p1 && k !in p2 ==> t.query.entries[k] == p1[k]
    ensures r2 == Gather(store(t.database, t.collection, t.query.entries))
    ensures old(t.query.entries) == map[] && p1 == map["_id" := Int(1)] && p2 == map[] ==>
      r2 == Gather(store(t.database, t.collection, map["_id" := Int(1)]))
  {
    ghost var template := t.query.entries;
    r1 := Invoke(t, p1, store);
    ghost var afterFirst := t.query.entries;
    assert afterFirst == Overlay(template, p1);
    r2 := Invoke(t, p2, store);
    assert t.query.entries == Overlay(afterFirst, p2);
    if template == map[] && p1 == map["_id" := Int(1)] && p2 == map[] {
      assert afterFirst == map["_id" := Int(1)];
      assert t.query.entries == map["_id" := Int(1)];
    }
  }
}
