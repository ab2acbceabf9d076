/** The deployment entry point of src/smithery.ts: the configuration is
    parsed into the server input, and the tools are loaded once with the
    configured token and, only if that fails, once more with a placeholder
    token. */
module Smithery {
  import opened Wrappers
  import opened Strings
  import opened Types
  import opened ToolRegistry
  import opened McpServer

  /** The deployment configuration; `None` is an absent (or null) field. */
  datatype SmitheryConfig = SmitheryConfig(
    apifyToken: Option<string>, enableAddingActors: Option<bool>, actors: Option<string>, tools: Option<string>)

  /** The input handed to the tool loader. */
  datatype LoaderInput = LoaderInput(actors: seq<string>, enableAddingActors: bool, tools: seq<string>)

  /** The options the server is constructed with. */
  datatype ServerOptions = ServerOptions(enableAddingActors: bool, enableDefaultActors: bool)

  /** Everything the entry point derives from the configuration before loading. */
  datatype DeploymentPlan = DeploymentPlan(
    apifyToken: string, input: LoaderInput, loadDefaults: bool, options: ServerOptions, env: map<string, string>)

  /** `value || ''` for an optional string. */
  function TextOrEmpty(x: Option<string>): string {
    if x.Some? then x.value else ""
  }

  /** A comma-separated list: `''` gives no entries, anything else is split
      at ',' with every piece trimmed and empty pieces kept. */
  function CommaList(s: string): (xs: seq<string>)
    ensures s == "" ==> xs == []
    ensures s != "" ==> |xs| == Count(s, ',') + 1 && xs == TrimAll(Split(s, ','))
  {
    SplitCount(s, ',');
    if s != "" then TrimAll(Split(s, ',')) else []
  }

  /** The configured token, else the environment's, else `''`. */
  function ApifyToken(config: SmitheryConfig, env: map<string, string>): (token: string)
    ensures TextOrEmpty(config.apifyToken) != "" ==> token == config.apifyToken.value
    ensures TextOrEmpty(config.apifyToken) == "" && "APIFY_TOKEN" in env && env["APIFY_TOKEN"] != "" ==>
      token == env["APIFY_TOKEN"]
    ensures TextOrEmpty(config.apifyToken) == "" && !("APIFY_TOKEN" in env && env["APIFY_TOKEN"] != "") ==>
      token == ""
  {
    if TextOrEmpty(config.apifyToken) != "" then config.apifyToken.value
    else if "APIFY_TOKEN" in env && env["APIFY_TOKEN"] != "" then env["APIFY_TOKEN"]
    else ""
  }

  /** The parsing part of the entry point. */
  function ParseConfig(config: SmitheryConfig, env: map<string, string>): (p: DeploymentPlan)
    ensures p.apifyToken == ApifyToken(config, env)
    // `?? true`: only a missing flag defaults to true, an explicit false is kept
    ensures p.input.enableAddingActors == (config.enableAddingActors != Some(false))
    ensures p.input.actors == CommaList(TextOrEmpty(config.actors))
    ensures p.input.tools == CommaList(TextOrEmpty(config.tools))
    // defaults are loaded exactly when no Actor is configured
    ensures p.loadDefaults <==> p.input.actors == []
    ensures p.options == ServerOptions(p.input.enableAddingActors, false)
    ensures p.env == env["APIFY_TOKEN" := p.apifyToken]
  {
    var token := ApifyToken(config, env);
    var enableAddingActors := config.enableAddingActors.GetOr(true);
    var actorList := CommaList(TextOrEmpty(config.actors));
    var toolKeys := CommaList(TextOrEmpty(config.tools));
    DeploymentPlan(token, LoaderInput(actorList, enableAddingActors, toolKeys), |actorList| == 0,
                   ServerOptions(enableAddingActors, false), env["APIFY_TOKEN" := token])
  }

  /** Empty pieces are kept: the entry at each position of a non-empty
      list is '' exactly when the piece at that position is blank. */
  lemma CommaListKeepsEmptyPieces(s: string)
    requires s != ""
    ensures |CommaList(s)| == |Split(s, ',')|
    ensures forall i :: 0 <= i < |Split(s, ',')| ==>
      (CommaList(s)[i] == "" <==> forall j :: 0 <= j < |Split(s, ',')[i]| ==> IsWhiteSpace(Split(s, ',')[i][j]))
  {
    forall i | 0 <= i < |Split(s, ',')|
      ensures CommaList(s)[i] == "" <==> forall j :: 0 <= j < |Split(s, ',')[i]| ==> IsWhiteSpace(Split(s, ',')[i][j])
    {
      TrimEmptyIffBlank(Split(s, ',')[i]);
    }
  }

  /** The tools the load task upserts: those of the first successful attempt. */
  function LoadedTools(first: Result<seq<Tool>>, second: Result<seq<Tool>>): Option<seq<Tool>> {
    if first.Ok? then Some(first.value) else if second.Ok? then Some(second.value) else None
  }

  /** The load task. `load` stands for `loadToolsFromInput`; `attempts` lists
      the tokens it was called with. The placeholder is tried only after the
      first attempt failed, and at most once; no failure leaves the task. */
  method LoadTask(server: ApifyMcpServer, plan: DeploymentPlan, placeholderToken: string,
                  load: (LoaderInput, string, bool) -> Result<seq<Tool>>)
    returns (attempts: seq<string>)
    requires server.Valid()
    modifies server
    ensures server.Valid()
    ensures var first := load(plan.input, plan.apifyToken, plan.loadDefaults);
      && (first.Ok? ==> attempts == [plan.apifyToken])
      && (first.Err? ==> attempts == [plan.apifyToken, placeholderToken])
    ensures var first := load(plan.input, plan.apifyToken, plan.loadDefaults);
      var second := load(plan.input, placeholderToken, plan.loadDefaults);
      var loaded := LoadedTools(first, second);
      && (loaded.Some? ==> server.State() == SetAll(old(server.State()), loaded.value))
      && (loaded.None? ==> server.State() == old(server.State()))
    ensures server.notifications == old(server.notifications) && server.calls == old(server.calls)
  {
    attempts := [plan.apifyToken];
    var first := load(plan.input, plan.apifyToken, plan.loadDefaults);
    if first.Ok? {
      server.UpdateTools(first.value);
      return;
    }
    attempts := attempts + [placeholderToken];
    var second := load(plan.input, placeholderToken, plan.loadDefaults);
    if second.Ok? {
      server.UpdateTools(second.value);
    }
  }

  /** The entry point: parse the configuration, create the server and run the
      load task. */
  method Deploy(config: SmitheryConfig, env: map<string, string>, placeholderToken: string,
                load: (LoaderInput, string, bool) -> Result<seq<Tool>>)
    returns (server: ApifyMcpServer, plan: DeploymentPlan, attempts: seq<string>)
    ensures fresh(server) && server.Valid()
    ensures plan == ParseConfig(config, env) && plan.options.enableDefaultActors == false
    ensures var loaded := LoadedTools(load(plan.input, plan.apifyToken, plan.loadDefaults),
                                      load(plan.input, placeholderToken, plan.loadDefaults));
      server.State() == if loaded.Some? then SetAll(Empty, loaded.value) else Empty
    ensures 1 <= |attempts| <= 2 && attempts[0] == plan.apifyToken
  {
    plan := ParseConfig(config, env);
    server := new ApifyMcpServer();
    attempts := LoadTask(server, plan, placeholderToken, load);
  }
}
