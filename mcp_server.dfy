/** The MCP server of src/mcp-server.ts: the tool registry, the list and
    call handlers, and the URL-driven start-up update. */
module McpServer {
  import opened Wrappers
  import opened JsValues
  import opened Strings
  import opened Constants
  import opened Types
  import opened ToolRegistry
  import opened StoreSearch
  import opened InputProcessing
  import opened McpUtils

  /** Notifications the server sends to its client. */
  datatype Notification = ToolListChanged

  /** The calls the server makes into the platform, in the order made. */
  datatype ExternalCall =
    | ResolveActors(actors: seq<string>)
    | SearchStore(query: StoreQuery)
    | FetchDefinition(actorName: string, limit: int)
    | RunActor(actor: Option<string>, input: Json, memoryMbytes: Option<int>)

  /** What a tool's compiled validator says about the arguments; a rejection
      carries its `errors`. */
  datatype Validation = Accepted | Rejected(errors: Json)

  /** The code the server calls but which is not part of this model. */
  datatype ServerBackend = ServerBackend(
    // getActorsAsTools of src/actors.js
    resolve: seq<string> -> Result<seq<Tool>>,
    // the tool's `ajvValidate`, compiled from its input schema
    validate: (InputSchema, Json) -> Validation,
    stringify: Json -> string,
    actorNameToToolName: string -> string,
    listStore: (StoreQuery, string) -> Result<seq<StoreItem>>,
    // getActorDefinition(actorName, limit); `JNull` for no definition
    getDefinition: (string, int) -> Result<Json>,
    // shortenProperties after filterSchemaProperties
    trimProperties: Json -> Json,
    // actor(name).call(input, { memory }) and the listing of its dataset
    runActor: (Option<string>, Json, string, Option<int>) -> Result<seq<Json>>)

  /** The output text of one dataset item: at most 5000 characters, and a
      text that reaches the limit is cut there and marked. */
  function TruncatedText(s: string): (t: string)
    ensures |s| < ActorOutputMaxCharsPerItem ==> t == s
    ensures |s| >= ActorOutputMaxCharsPerItem ==>
      t == s[..ActorOutputMaxCharsPerItem] + " ... " + ActorOutputTruncatedMessage
  {
    var text := Take(s, ActorOutputMaxCharsPerItem);
    if |text| == ActorOutputMaxCharsPerItem then text + " ... " + ActorOutputTruncatedMessage else text
  }

  /** One text item per dataset item, in order. */
  function ActorOutput(items: seq<Json>, stringify: Json -> string): (content: seq<Content>)
    ensures |content| == |items|
    ensures forall i :: 0 <= i < |items| ==> content[i] == Text(TruncatedText(stringify(items[i])))
  {
    seq(|items|, i requires 0 <= i < |items| => Text(TruncatedText(stringify(items[i]))))
  }

  /** A text of exactly the limit is marked as truncated although nothing was cut. */
  lemma TruncatedAtExactLimit(s: string)
    requires |s| == ActorOutputMaxCharsPerItem
    ensures TruncatedText(s) == s + " ... " + ActorOutputTruncatedMessage
  {
    assert s[..ActorOutputMaxCharsPerItem] == s;
  }

  /** `callActorGetDataset` of the server: the items, or the failure wrapped
      as "Error calling actor: …". */
  function CallActorGetDataset(actorName: Option<string>, input: Json, token: string, memoryMbytes: Option<int>,
                               backend: ServerBackend): (r: Result<seq<Json>>)
    ensures backend.runActor(actorName, input, token, memoryMbytes).Ok? ==>
      r == backend.runActor(actorName, input, token, memoryMbytes)
    ensures backend.runActor(actorName, input, token, memoryMbytes).Err? ==>
      r == Err("Error calling actor: " + Rendered(backend.runActor(actorName, input, token, memoryMbytes).error))
  {
    match backend.runActor(actorName, input, token, memoryMbytes)
    case Ok(items) => Ok(items)
    case Err(e) => Err("Error calling actor: " + Rendered(e))
  }

  /** The reply of `add-tool`: each added tool as "<full name> (tool name: <name>)". */
  function AddedText(ts: seq<Tool>): string {
    "Actor added: " + Join(seq(|ts|, i requires 0 <= i < |ts| => ts[i].FullNameText() + " (tool name: " + ts[i].name + ")"), ", ")
  }

  /** The details reply: the definition with its input properties trimmed
      when it has an input schema with properties. */
  function DetailsView(v: Json, trim: Json -> Json): (w: Json)
    ensures (v.JObj? && "input" in v.fields && v.fields["input"].JObj? && "properties" in v.fields["input"].fields) ==>
      (w.JObj? && w.fields.Keys == v.fields.Keys
       && (forall k :: k in v.fields && k != "input" ==> w.fields[k] == v.fields[k])
       && w.fields["input"] == JObj(v.fields["input"].fields["properties" := trim(v.fields["input"].fields["properties"])]))
    ensures !(v.JObj? && "input" in v.fields && v.fields["input"].JObj? && "properties" in v.fields["input"].fields) ==> w == v
  {
    if v.JObj? && "input" in v.fields && v.fields["input"].JObj? && "properties" in v.fields["input"].fields then
      var input := v.fields["input"].fields;
      JObj(v.fields["input" := JObj(input["properties" := trim(input["properties"])])])
    else v
  }

  /** The checks before any tool runs, in order: a tool must match the name,
      arguments must be present, and the validator must accept them. */
  function Guard(listed: seq<Tool>, name: string, args: Option<Json>, backend: ServerBackend): (r: Result<Tool>)
    ensures Find(listed, name).None? ==> r == Err("Unknown tool: " + name)
    ensures Find(listed, name).Some? && (args.None? || !Truthy(args.value)) ==>
      r == Err("Missing arguments for tool: " + name)
    ensures Find(listed, name).Some? && args.Some? && Truthy(args.value) ==>
      var tool := Find(listed, name).value;
      match backend.validate(tool.inputSchema, args.value)
      case Accepted => r == Ok(tool)
      case Rejected(errors) =>
        r == Err("Invalid arguments for tool " + tool.name + ": args: " + backend.stringify(args.value)
                 + " error: " + backend.stringify(errors))
  {
    var found := Find(listed, name);
    if found.None? then Err("Unknown tool: " + name)
    else if args.None? || !Truthy(args.value) then Err("Missing arguments for tool: " + name)
    else
      var tool := found.value;
      match backend.validate(tool.inputSchema, args.value)
      case Accepted => Ok(tool)
      case Rejected(errors) =>
        Err("Invalid arguments for tool " + tool.name + ": args: " + backend.stringify(args.value)
            + " error: " + backend.stringify(errors))
  }

  /** What a routed call does: its reply, the registry afterwards, the
      notifications sent and the calls made. */
  datatype Outcome = Outcome(result: Result<seq<Content>>, state: Registry, notified: seq<Notification>,
                             calls: seq<ExternalCall>)

  /** The switch on the requested name, before errors are wrapped. */
  function Routed(reg: Registry, name: string, tool: Tool, args: Json, token: string, backend: ServerBackend)
    : (o: Outcome)
    requires Valid(reg)
    ensures Valid(o.state)
    ensures name != HelperAddTool && name != HelperRemoveTool ==> o.state == reg && o.notified == []
    ensures o.result.Err? ==> o.state == reg && o.notified == []
  {
    if name == HelperAddTool then
      match ParseAddArgs(args)
      case Err(e) => Outcome(Err(e), reg, [], [])
      case Ok(actorName) =>
        match backend.resolve([actorName])
        case Err(e) => Outcome(Err(e), reg, [], [ResolveActors([actorName])])
        case Ok(added) =>
          Outcome(Ok([Text(AddedText(added))]), SetAll(reg, added), [ToolListChanged], [ResolveActors([actorName])])
    else if name == HelperRemoveTool then
      match ParseRemoveArgs(args, backend.actorNameToToolName)
      case Err(e) => Outcome(Err(e), reg, [], [])
      case Ok(toolName) =>
        DeleteEffect(reg, toolName);
        Outcome(Ok([Text("Tool " + toolName + " was removed")]), Delete(reg, toolName), [ToolListChanged], [])
    else if name == HelperSearch then
      match ParseDiscoverArgs(args)
      case Err(e) => Outcome(Err(e), reg, [], [])
      case Ok(a) =>
        var q := StoreQuery(a.search, a.limit, a.offset);
        match SearchActorsByKeywords(q, token, backend.listStore)
        case Err(e) => Outcome(Err(e), reg, [], [SearchStore(q)])
        case Ok(actors) =>
          Outcome(Ok(seq(|actors|, i requires 0 <= i < |actors| => Text(backend.stringify(PrunedToJson(actors[i]))))),
                  reg, [], [SearchStore(q)])
    else if name == HelperGetToolDetails then
      match ParseDetailsArgs(args)
      case Err(e) => Outcome(Err(e), reg, [], [])
      case Ok(d) =>
        match backend.getDefinition(d.0, d.1)
        case Err(e) => Outcome(Err(e), reg, [], [FetchDefinition(d.0, d.1)])
        case Ok(v) =>
          Outcome(Ok([Text(backend.stringify(DetailsView(v, backend.trimProperties)))]), reg, [], [FetchDefinition(d.0, d.1)])
    else
      var run := RunActor(tool.FullName(), args, tool.Memory());
      match CallActorGetDataset(tool.FullName(), args, token, tool.Memory(), backend)
      case Err(e) => Outcome(Err(e), reg, [], [run])
      case Ok(items) => Outcome(Ok(ActorOutput(items, backend.stringify)), reg, [], [run])
  }

  /** A failure inside the switch reaches the client as "Error calling tool: …". */
  function WrapToolError(r: Result<seq<Content>>): (w: Result<seq<Content>>)
    ensures r.Ok? ==> w == r
    ensures r.Err? ==> w == Err("Error calling tool: " + Rendered(r.error))
  {
    if r.Err? then Err("Error calling tool: " + Rendered(r.error)) else r
  }

  /** `remove-tool` deletes the normalised name, present or not, keeps every
      other tool and sends exactly one list-changed notification. */
  lemma RemoveToolEffect(reg: Registry, tool: Tool, args: Json, token: string, backend: ServerBackend)
    requires Valid(reg)
    requires ParseRemoveArgs(args, backend.actorNameToToolName).Ok?
    ensures var o := Routed(reg, HelperRemoveTool, tool, args, token, backend);
      var toolName := ParseRemoveArgs(args, backend.actorNameToToolName).value;
      && o.result == Ok([Text("Tool " + toolName + " was removed")])
      && toolName !in o.state.entries
      && (forall k :: k != toolName ==> ((k in o.state.entries <==> k in reg.entries)
           && (k in reg.entries ==> o.state.entries[k] == reg.entries[k])))
      && o.notified == [ToolListChanged] && o.calls == []
  {
    DeleteEffect(reg, ParseRemoveArgs(args, backend.actorNameToToolName).value);
  }

  /** `add-tool` that resolves one tool with a new name lists exactly one more
      tool, the new one last, and sends exactly one list-changed notification. */
  lemma AddToolGrowsByOne(reg: Registry, tool: Tool, args: Json, token: string, backend: ServerBackend, t: Tool)
    requires Valid(reg)
    requires ParseAddArgs(args).Ok? && backend.resolve([ParseAddArgs(args).value]) == Ok([t])
    requires t.name !in reg.entries
    ensures var o := Routed(reg, HelperAddTool, tool, args, token, backend);
      && Values(o.state) == Values(reg) + [t]
      && o.notified == [ToolListChanged]
      && o.calls == [ResolveActors([ParseAddArgs(args).value])]
  {
    assert [t][..0] == [];
    assert SetAll(reg, [t]) == Set(reg, t);
    UpsertListing(reg, t);
  }

  /** A call routed to an Actor runs it once with the tool's memory limit and
      answers with one truncated text item per dataset item. */
  lemma ActorCallOutput(reg: Registry, name: string, tool: Tool, args: Json, token: string, backend: ServerBackend)
    requires Valid(reg)
    requires name != HelperAddTool && name != HelperRemoveTool && name != HelperSearch && name != HelperGetToolDetails
    requires backend.runActor(tool.FullName(), args, token, tool.Memory()).Ok?
    ensures var o := Routed(reg, name, tool, args, token, backend);
      var items := backend.runActor(tool.FullName(), args, token, tool.Memory()).value;
      && o.result.Ok? && |o.result.value| == |items|
      && (forall i :: 0 <= i < |items| ==> o.result.value[i] == Text(TruncatedText(backend.stringify(items[i]))))
      && o.calls == [RunActor(tool.FullName(), args, tool.Memory())]
      && o.state == reg && o.notified == []
  {
  }

  /** The server: the registry (`tools`, with its keys in insertion order),
      the notifications sent and the platform calls made so far. */
  class ApifyMcpServer {
    var order: seq<string>
    var tools: map<string, Tool>
    var notifications: seq<Notification>
    var calls: seq<ExternalCall>

    function State(): Registry
      reads this
    {
      Registry(order, tools)
    }

    ghost predicate Valid()
      reads this
    {
      ToolRegistry.Valid(State()) && Keyed(State())
    }

    constructor()
      ensures Valid() && State() == Empty && notifications == [] && calls == []
    {
      order, tools := [], map[];
      notifications, calls := [], [];
    }

    /** `updateTools`: `set` each tool under its name, in turn. */
    method UpdateTools(ts: seq<Tool>)
      requires Valid()
      modifies this
      ensures Valid()
      ensures State() == SetAll(old(State()), ts)
      ensures notifications == old(notifications) && calls == old(calls)
    {
      for i := 0 to |ts|
        invariant ToolRegistry.Valid(State())
        invariant State() == SetAll(old(State()), ts[..i])
        invariant notifications == old(notifications) && calls == old(calls)
      {
        assert ts[..i + 1][..i] == ts[..i];
        var t := ts[i];
        if t.name !in tools {
          order := order + [t.name];
        }
        tools := tools[t.name := t];
      }
      assert ts[..|ts|] == ts;
      SetAllKeyed(old(State()), ts);
    }

    /** `getToolNames`: the names in first-insertion order. */
    function GetToolNames(): (names: seq<string>)
      reads this
      requires Valid()
      ensures forall k :: k in names <==> k in tools
      ensures |names| == |tools|
    {
      DistinctCardinality(order, tools);
      order
    }

    /** The list handler: the tools in first-insertion order of their names. */
    function ListTools(): (ts: seq<Tool>)
      reads this
      requires Valid()
      ensures |ts| == |GetToolNames()|
      ensures forall i :: 0 <= i < |ts| ==> ts[i].name == GetToolNames()[i] && ts[i] == tools[GetToolNames()[i]]
    {
      Values(State())
    }

    /** `addToolsFromActors`: resolve the Actors and upsert their tools. */
    method AddToolsFromActors(actors: seq<string>, backend: ServerBackend) returns (r: Result<seq<Tool>>)
      requires Valid()
      modifies this
      ensures Valid()
      ensures r == backend.resolve(actors)
      ensures State() == (if r.Ok? then SetAll(old(State()), r.value) else old(State()))
      ensures notifications == old(notifications) && calls == old(calls) + [ResolveActors(actors)]
    {
      calls := calls + [ResolveActors(actors)];
      r := backend.resolve(actors);
      if r.Ok? {
        UpdateTools(r.value);
      }
    }

    /** `addToolsFromDefaultActors`. */
    method AddToolsFromDefaultActors(backend: ServerBackend) returns (r: Result<seq<Tool>>)
      requires Valid()
      modifies this
      ensures Valid()
      ensures r == backend.resolve(DefaultActors)
      ensures State() == (if r.Ok? then SetAll(old(State()), r.value) else old(State()))
      ensures notifications == old(notifications) && calls == old(calls) + [ResolveActors(DefaultActors)]
    {
      r := AddToolsFromActors(DefaultActors, backend);
    }

    /** The call handler. A failed guard changes nothing and calls nothing;
        otherwise the switch runs and its failures are wrapped. */
    method CallTool(name: string, args: Option<Json>, token: string, backend: ServerBackend)
      returns (r: Result<seq<Content>>)
      requires Valid()
      modifies this
      ensures Valid()
      ensures Guard(Values(old(State())), name, args, backend).Err? ==>
        (r == Err(Guard(Values(old(State())), name, args, backend).error)
         && State() == old(State()) && notifications == old(notifications) && calls == old(calls))
      ensures Guard(Values(old(State())), name, args, backend).Ok? ==>
        var o := Routed(old(State()), name, Guard(Values(old(State())), name, args, backend).value, args.value, token, backend);
        (r == WrapToolError(o.result) && State() == o.state
         && notifications == old(notifications) + o.notified && calls == old(calls) + o.calls)
    {
      var listed := Values(State());
      var found := Find(listed, name);
      if found.None? {
        return Err("Unknown tool: " + name);
      }
      var tool := found.value;
      if args.None? || !Truthy(args.value) {
        return Err("Missing arguments for tool: " + name);
      }
      var verdict := backend.validate(tool.inputSchema, args.value);
      if verdict.Rejected? {
        return Err("Invalid arguments for tool " + tool.name + ": args: " + backend.stringify(args.value)
                   + " error: " + backend.stringify(verdict.errors));
      }
      var result := RunSwitch(name, tool, args.value, token, backend);
      r := WrapToolError(result);
    }

    /** The switch of the call handler. */
    method RunSwitch(name: string, tool: Tool, args: Json, token: string, backend: ServerBackend)
      returns (r: Result<seq<Content>>)
      requires Valid()
      modifies this
      ensures Valid()
      ensures var o := Routed(old(State()), name, tool, args, token, backend);
        (r == o.result && State() == o.state
         && notifications == old(notifications) + o.notified && calls == old(calls) + o.calls)
    {
      if name == HelperAddTool {
        var parsed := ParseAddArgs(args);
        if parsed.Err? {
          return Err(parsed.error);
        }
        var added := AddToolsFromActors([parsed.value], backend);
        if added.Err? {
          return Err(added.error);
        }
        notifications := notifications + [ToolListChanged];
        r := Ok([Text(AddedText(added.value))]);
      } else if name == HelperRemoveTool {
        var parsed := ParseRemoveArgs(args, backend.actorNameToToolName);
        if parsed.Err? {
          return Err(parsed.error);
        }
        DeleteEffect(State(), parsed.value);
        assert Keyed(Delete(State(), parsed.value));
        order := Without(order, parsed.value);
        tools := tools - {parsed.value};
        notifications := notifications + [ToolListChanged];
        r := Ok([Text("Tool " + parsed.value + " was removed")]);
      } else if name == HelperSearch {
        var parsed := ParseDiscoverArgs(args);
        if parsed.Err? {
          return Err(parsed.error);
        }
        var q := StoreQuery(parsed.value.search, parsed.value.limit, parsed.value.offset);
        calls := calls + [SearchStore(q)];
        var actors := SearchActorsByKeywords(q, token, backend.listStore);
        if actors.Err? {
          return Err(actors.error);
        }
        var found := actors.value;
        r := Ok(seq(|found|, i requires 0 <= i < |found| => Text(backend.stringify(PrunedToJson(found[i])))));
      } else if name == HelperGetToolDetails {
        var parsed := ParseDetailsArgs(args);
        if parsed.Err? {
          return Err(parsed.error);
        }
        calls := calls + [FetchDefinition(parsed.value.0, parsed.value.1)];
        var v := backend.getDefinition(parsed.value.0, parsed.value.1);
        if v.Err? {
          return Err(v.error);
        }
        r := Ok([Text(backend.stringify(DetailsView(v.value, backend.trimProperties)))]);
      } else {
        calls := calls + [RunActor(tool.FullName(), args, tool.Memory())];
        var items := CallActorGetDataset(tool.FullName(), args, token, tool.Memory(), backend);
        if items.Err? {
          return Err(items.error);
        }
        r := Ok(ActorOutput(items.value, backend.stringify));
      }
    }
  }

  /** The tools the start-up update resolves: those of truthy `actors`
      when resolving succeeds, none otherwise. */
  function ResolvedTools(input: map<string, Json>, backend: ServerBackend): seq<Tool>
    requires "actors" in input ==> IsStringList(input["actors"])
  {
    if FieldTruthy(input, "actors") && backend.resolve(Texts(input["actors"])).Ok?
    then backend.resolve(Texts(input["actors"])).value else []
  }

  /** Key `k` is overwritten by an auto-loading tool at start-up. */
  predicate AutoLoaded(input: map<string, Json>, k: string) {
    FieldTruthy(input, "enableActorAutoLoading") && k in NamesOf(AutoLoadingTools())
  }

  /** The registry after the start-up update from normalised input: the
      tools of its Actors, then the auto-loading tools when
      `enableActorAutoLoading` is truthy. */
  function StartupRegistry(reg: Registry, input: map<string, Json>, backend: ServerBackend): (r: Result<Registry>)
    requires Valid(reg)
    requires "actors" in input ==> IsStringList(input["actors"])
    ensures r.Ok? ==> Valid(r.value)
    ensures r.Err? <==> FieldTruthy(input, "actors") && backend.resolve(Texts(input["actors"])).Err?
    ensures r.Ok? ==> reg.order <= r.value.order
    // each resolved Actor tool is upserted: the last one of each name wins
    ensures r.Ok? ==> forall k :: k in NamesOf(ResolvedTools(input, backend)) && !AutoLoaded(input, k) ==>
      (k in r.value.entries && LastNamed(ResolvedTools(input, backend), k) == Some(r.value.entries[k]))
    // every other key keeps its entry, or stays absent
    ensures r.Ok? ==> forall k :: k !in NamesOf(ResolvedTools(input, backend)) && !AutoLoaded(input, k) ==>
      ((k in r.value.entries <==> k in reg.entries) && (k in reg.entries ==> r.value.entries[k] == reg.entries[k]))
    ensures r.Ok? && FieldTruthy(input, "enableActorAutoLoading") ==>
      forall i :: 0 <= i < 2 ==>
        (AutoLoadingTools()[i].name in r.value.entries && r.value.entries[AutoLoadingTools()[i].name] == AutoLoadingTools()[i])
    ensures !FieldTruthy(input, "actors") && !FieldTruthy(input, "enableActorAutoLoading") ==> r == Ok(reg)
  {
    var withActors :-
      if FieldTruthy(input, "actors") then
        match backend.resolve(Texts(input["actors"]))
        case Err(e) => Err(e)
        case Ok(ts) => SetAllKeepsOrder(reg, ts); Ok(SetAll(reg, ts))
      else Ok(reg);
    assert withActors == SetAll(reg, ResolvedTools(input, backend));
    StartupEntries(reg, ResolvedTools(input, backend), FieldTruthy(input, "enableActorAutoLoading"));
    if FieldTruthy(input, "enableActorAutoLoading") then
      var auto := AutoLoadingTools();
      SetAllKeepsOrder(withActors, auto);
      SetAllLastWins(withActors, auto, auto[0].name);
      SetAllLastWins(withActors, auto, auto[1].name);
      Ok(SetAll(withActors, auto))
    else Ok(withActors)
  }

  /** What upserting `ts` and then, when `auto`, the auto-loading tools does
      to the keys the auto-loading tools do not overwrite. */
  lemma StartupEntries(reg: Registry, ts: seq<Tool>, auto: bool)
    requires Valid(reg)
    ensures var after := if auto then SetAll(SetAll(reg, ts), AutoLoadingTools()) else SetAll(reg, ts);
      && (forall k :: k in NamesOf(ts) && !(auto && k in NamesOf(AutoLoadingTools())) ==>
            (k in after.entries && LastNamed(ts, k) == Some(after.entries[k])))
      && (forall k :: k !in NamesOf(ts) && !(auto && k in NamesOf(AutoLoadingTools())) ==>
            ((k in after.entries <==> k in reg.entries) && (k in reg.entries ==> after.entries[k] == reg.entries[k])))
  {
    var after := if auto then SetAll(SetAll(reg, ts), AutoLoadingTools()) else SetAll(reg, ts);
    forall k | !(auto && k in NamesOf(AutoLoadingTools()))
      ensures k in NamesOf(ts) ==> (k in after.entries && LastNamed(ts, k) == Some(after.entries[k]))
      ensures k !in NamesOf(ts) ==>
        ((k in after.entries <==> k in reg.entries) && (k in reg.entries ==> after.entries[k] == reg.entries[k]))
    {
      SetAllEntry(reg, ts, k);
      if auto {
        SetAllEntry(SetAll(reg, ts), AutoLoadingTools(), k);
      }
    }
  }

  /** The query parameters of `url` without `token`. */
  function StartupParams(url: string, parse: string -> QueryParams): QueryParams {
    parse(QueryString(url)) - {"token"}
  }

  /** The normalised start-up input; its `actors` is a list of strings. */
  function StartupInput(url: string, parse: string -> QueryParams): (r: Result<map<string, Json>>)
    ensures r == ProcessInput(StartupParams(url, parse))
    ensures r.Ok? ==> "actors" in r.value && IsStringList(r.value["actors"])
  {
    var params := StartupParams(url, parse);
    var r := ProcessInput(params);
    if r.Ok? then QueryInputShape(params); r else r
  }

  /** The registry after `processParamsAndUpdateTools`: input normalisation
      fails, or the start-up update of the normalised input applies. */
  function Startup(reg: Registry, url: string, parse: string -> QueryParams, backend: ServerBackend): (r: Result<Registry>)
    requires Valid(reg)
    ensures StartupInput(url, parse).Err? ==> r == Err(StartupInput(url, parse).error)
    ensures StartupInput(url, parse).Ok? ==> r == StartupRegistry(reg, StartupInput(url, parse).value, backend)
    ensures r.Ok? ==> Valid(r.value)
  {
    var input :- StartupInput(url, parse);
    StartupRegistry(reg, input, backend)
  }

  /** The external calls `processParamsAndUpdateTools` makes: one resolution
      of the normalised input's Actors when they are truthy, none otherwise. */
  function StartupCalls(url: string, parse: string -> QueryParams): (calls: seq<ExternalCall>)
    ensures |calls| <= 1
    ensures StartupInput(url, parse).Err? ==> calls == []
  {
    match StartupInput(url, parse)
    case Ok(input) => if FieldTruthy(input, "actors") then [ResolveActors(Texts(input["actors"]))] else []
    case Err(_) => []
  }

  /** `processParamsAndUpdateTools`. */
  method ProcessParamsAndUpdateTools(url: string, server: ApifyMcpServer, parse: string -> QueryParams,
                                     backend: ServerBackend)
    returns (r: Result<()>)
    requires server.Valid()
    modifies server
    ensures server.Valid() && server.notifications == old(server.notifications)
    ensures server.calls == old(server.calls) + StartupCalls(url, parse)
    ensures Startup(old(server.State()), url, parse, backend).Err? ==>
      r == Err(Startup(old(server.State()), url, parse, backend).error) && server.State() == old(server.State())
    ensures Startup(old(server.State()), url, parse, backend).Ok? ==>
      r == Ok(()) && server.State() == Startup(old(server.State()), url, parse, backend).value
  {
    var processed := StartupInput(url, parse);
    if processed.Err? {
      return Err(processed.error);
    }
    var input := processed.value;
    if FieldTruthy(input, "actors") {
      var added := server.AddToolsFromActors(Texts(input["actors"]), backend);
      if added.Err? {
        return Err(added.error);
      }
    }
    if FieldTruthy(input, "enableActorAutoLoading") {
      server.UpdateTools(AutoLoadingTools());
    }
    r := Ok(());
  }

  /** The query value `enableActorAutoLoading=false` is a non-empty string,
      hence truthy: it switches auto-loading on. */
  lemma AutoLoadingFromQueryText(reg: Registry, input: map<string, Json>, backend: ServerBackend)
    requires Valid(reg)
    requires "actors" in input && IsStringList(input["actors"])
    requires input["actors"].items != [] && backend.resolve(Texts(input["actors"])).Ok?
    requires "enableActorAutoLoading" in input && input["enableActorAutoLoading"] == JStr("false")
    ensures StartupRegistry(reg, input, backend)
      == Ok(SetAll(SetAll(reg, backend.resolve(Texts(input["actors"])).value), AutoLoadingTools()))
  {
    assert FieldTruthy(input, "actors");
    assert FieldTruthy(input, "enableActorAutoLoading");
  }

  /** A duplicate-free order lists as many names as the map has keys. */
  lemma DistinctCardinality(order: seq<string>, tools: map<string, Tool>)
    requires ToolRegistry.Valid(Registry(order, tools))
    ensures |order| == |tools|
  {
    DistinctSeqSetSize(order);
    assert tools.Keys == set k | k in order;
  }

  lemma {:induction false} DistinctSeqSetSize(s: seq<string>)
    requires Distinct(s)
    ensures |set k | k in s| == |s|
  {
    if |s| > 0 {
      var tail := s[1..];
      assert Distinct(tail) by {
        forall i, j | 0 <= i < j < |tail| ensures tail[i] != tail[j] {
          assert tail[i] == s[i + 1] && tail[j] == s[j + 1];
        }
      }
      DistinctSeqSetSize(tail);
      assert s[0] !in tail by {
        forall j | 0 <= j < |tail| ensures tail[j] != s[0] {
          assert tail[j] == s[j + 1];
        }
      }
      assert (set k | k in s) == (set k | k in tail) + {s[0]};
    }
  }
}
