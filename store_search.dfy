/** Actor Store search: the argument schemas of the helper tools, the
    pruning of store records, the search tool and the auto-loading tool
    definitions (src/tools.ts and src/tools/store_collection.ts, which
    define `pruneActorStoreInfo` and the search argument schema identically). */
module StoreSearch {
  import opened Wrappers
  import opened JsValues
  import opened Strings
  import opened Constants
  import opened Types

  /** A store record as the Apify API returns it (`ActorStoreList`);
      `None` is a missing property. */
  datatype StoreItem = StoreItem(
    id: string, name: Option<string>, username: Option<string>, title: Option<string>,
    description: Option<string>, stats: Option<StatsIn>, currentPricingInfo: Option<PricingIn>,
    url: Option<string>, totalStars: Option<Json>)

  datatype StatsIn = StatsIn(totalRuns: Option<real>, totalUsers30Days: Option<real>, publicActorRunStats30Days: Option<Json>)

  datatype PricingIn = PricingIn(pricingModel: Option<string>, pricePerUnitUsd: Option<real>, trialMinutes: Option<real>)

  /** `x?.toString() || ''` on an optional string. */
  function OrEmpty(x: Option<string>): string {
    x.GetOr("")
  }

  /** `${x}` on an optional string: a missing value renders as "undefined". */
  function Show(x: Option<string>): string {
    x.GetOr("undefined")
  }

  /** `pruneActorStoreInfo`. */
  function Prune(item: StoreItem): (p: ActorStorePruned)
    ensures p.id == item.id
    ensures p.actorFullName == Show(item.username) + "/" + Show(item.name)
    ensures item.name.None? ==> p.name == ""
    ensures item.username.None? ==> p.username == ""
    ensures item.title.None? ==> p.title == ""
    ensures item.description.None? ==> p.description == ""
    ensures item.url.None? ==> p.url == ""
    ensures item.name.Some? ==> p.name == item.name.value
    ensures item.username.Some? ==> p.username == item.username.value
    ensures item.title.Some? ==> p.title == item.title.value
    ensures item.description.Some? ==> p.description == item.description.value
    ensures item.url.Some? ==> p.url == item.url.value
    ensures item.totalStars.None? ==> p.totalStars == JNull
    ensures item.totalStars.Some? ==> p.totalStars == item.totalStars.value
    ensures item.stats.None? ==> p.stats == ActorStats(None, None, JObj(map[]))
    ensures item.stats.Some? ==> (p.stats.totalRuns == item.stats.value.totalRuns
      && p.stats.totalUsers30Days == item.stats.value.totalUsers30Days
      && p.stats.publicActorRunStats30Days == item.stats.value.publicActorRunStats30Days.GetOr(JObj(map[])))
    ensures item.currentPricingInfo.None? ==> p.currentPricingInfo == PricingInfo("", 0.0, 0.0)
    ensures item.currentPricingInfo.Some? ==>
      var pi := item.currentPricingInfo.value;
      p.currentPricingInfo == PricingInfo(OrEmpty(pi.pricingModel), pi.pricePerUnitUsd.GetOr(0.0), pi.trialMinutes.GetOr(0.0))
  {
    var stats := item.stats.GetOr(StatsIn(None, None, None));
    var pricing := item.currentPricingInfo.GetOr(PricingIn(None, None, None));
    ActorStorePruned(
      id := item.id,
      name := OrEmpty(item.name),
      username := OrEmpty(item.username),
      actorFullName := Show(item.username) + "/" + Show(item.name),
      title := OrEmpty(item.title),
      description := OrEmpty(item.description),
      stats := ActorStats(stats.totalRuns, stats.totalUsers30Days, stats.publicActorRunStats30Days.GetOr(JObj(map[]))),
      currentPricingInfo := PricingInfo(OrEmpty(pricing.pricingModel), pricing.pricePerUnitUsd.GetOr(0.0), pricing.trialMinutes.GetOr(0.0)),
      url := OrEmpty(item.url),
      totalStars := item.totalStars.GetOr(JNull))
  }

  /** A record with the properties whose values are present (JSON.stringify omits `undefined`). */
  function Present(m: map<string, Json>, key: string, v: Option<real>): map<string, Json> {
    if v.Some? then m[key := JNum(v.value)] else m
  }

  /** The pruned record as the object that is serialised into a content item. */
  function PrunedToJson(p: ActorStorePruned): Json {
    var stats := Present(Present(map["publicActorRunStats30Days" := p.stats.publicActorRunStats30Days],
      "totalRuns", p.stats.totalRuns), "totalUsers30Days", p.stats.totalUsers30Days);
    JObj(map[
      "id" := JStr(p.id), "name" := JStr(p.name), "username" := JStr(p.username),
      "actorFullName" := JStr(p.actorFullName), "title" := JStr(p.title), "description" := JStr(p.description),
      "stats" := JObj(stats),
      "currentPricingInfo" := JObj(map[
        "pricingModel" := JStr(p.currentPricingInfo.pricingModel),
        "pricePerUnitUsd" := JNum(p.currentPricingInfo.pricePerUnitUsd),
        "trialMinutes" := JNum(p.currentPricingInfo.trialMinutes)]),
      "url" := JStr(p.url), "totalStars" := p.totalStars])
  }

  /** What is sent to the store listing endpoint. The `category` argument is not part of it. */
  datatype StoreQuery = StoreQuery(search: string, limit: int, offset: int)

  /** `searchActorsByKeywords`: one pruned record per store item, in the
      store's order. `listStore` is the Apify store client call. */
  function SearchActorsByKeywords(q: StoreQuery, token: string,
                                  listStore: (StoreQuery, string) -> Result<seq<StoreItem>>): (r: Result<seq<ActorStorePruned>>)
    ensures listStore(q, token).Err? ==> r == Err(listStore(q, token).error)
    ensures listStore(q, token).Ok? ==> (r.Ok? && |r.value| == |listStore(q, token).value|
      && forall i :: 0 <= i < |r.value| ==> r.value[i] == Prune(listStore(q, token).value[i]))
  {
    var items :- listStore(q, token);
    Ok(seq(|items|, i requires 0 <= i < |items| => Prune(items[i])))
  }

  // ---- argument schemas (zod) ----

  /** Stands for the message of the error zod throws when parsing fails at `path`. */
  function ZodIssue(path: string): string {
    "invalid argument " + path
  }

  /** An optional integer property with a default and optional bounds
      (`z.number().int().min(lo).max(hi).default(d)`). */
  function IntField(m: map<string, Json>, key: string, default: int, lo: Option<int>, hi: Option<int>): (r: Result<int>)
    ensures key !in m ==> r == Ok(default)
    ensures key in m ==> (r.Ok? <==> (m[key].JNum? && IsInteger(m[key].n)
      && (lo.Some? ==> lo.value as real <= m[key].n) && (hi.Some? ==> m[key].n <= hi.value as real)))
    ensures key in m && r.Ok? ==> r.value as real == m[key].n
  {
    if key !in m then Ok(default)
    else match m[key]
      case JNum(n) =>
        if IsInteger(n) && (lo.Some? ==> lo.value as real <= n) && (hi.Some? ==> n <= hi.value as real)
        then Ok(n.Floor) else Err(ZodIssue(key))
      case _ => Err(ZodIssue(key))
  }

  /** A string property, required when `default` is `None` (`z.string().default(d)`). */
  function StrField(m: map<string, Json>, key: string, default: Option<string>): (r: Result<string>)
    ensures key !in m ==> (r.Ok? <==> default.Some?) && (default.Some? ==> r == Ok(default.value))
    ensures key in m ==> (r.Ok? <==> m[key].JStr?) && (r.Ok? ==> r.value == m[key].s)
  {
    if key in m then (if m[key].JStr? then Ok(m[key].s) else Err(ZodIssue(key)))
    else if default.Some? then Ok(default.value) else Err(ZodIssue(key))
  }

  /** Parsed arguments of the discovery and store-search tools. */
  datatype DiscoverArgs = DiscoverArgs(limit: int, offset: int, search: string, category: string)

  /** `DiscoverActorsArgsSchema.parse` / `searchActorsArgsSchema.parse`: `limit`
      an integer in 1..100 (default 10), `offset` an integer at least 0 (default 0),
      `search` and `category` strings (default ''); other properties are dropped. */
  function ParseDiscoverArgs(args: Json): (r: Result<DiscoverArgs>)
    ensures !args.JObj? ==> r.Err?
    ensures r.Ok? ==> 1 <= r.value.limit <= 100 && r.value.offset >= 0
    ensures args.JObj? && "limit" !in args.fields ==> r.Ok? ==> r.value.limit == 10
    ensures args.JObj? && "offset" !in args.fields ==> r.Ok? ==> r.value.offset == 0
    ensures args.JObj? && "search" !in args.fields ==> r.Ok? ==> r.value.search == ""
    ensures args.JObj? && "category" !in args.fields ==> r.Ok? ==> r.value.category == ""
    ensures args == JObj(map[]) ==> r == Ok(DiscoverArgs(10, 0, "", ""))
    // parsing fails exactly when one of the four properties is rejected
    ensures args.JObj? ==> (r.Ok? <==>
      && IntField(args.fields, "limit", 10, Some(1), Some(100)).Ok?
      && IntField(args.fields, "offset", 0, Some(0), None).Ok?
      && StrField(args.fields, "search", Some("")).Ok?
      && StrField(args.fields, "category", Some("")).Ok?)
    // a supplied value is the value parsed
    ensures r.Ok? && "limit" in args.fields ==> r.value.limit as real == args.fields["limit"].n
    ensures r.Ok? && "offset" in args.fields ==> r.value.offset as real == args.fields["offset"].n
    ensures r.Ok? && "search" in args.fields ==> r.value.search == args.fields["search"].s
    ensures r.Ok? && "category" in args.fields ==> r.value.category == args.fields["category"].s
  {
    if !args.JObj? then Err(ZodIssue("(root)"))
    else
      var m := args.fields;
      var limit :- IntField(m, "limit", 10, Some(1), Some(100));
      var offset :- IntField(m, "offset", 0, Some(0), None);
      var search :- StrField(m, "search", Some(""));
      var category :- StrField(m, "category", Some(""));
      Ok(DiscoverArgs(limit, offset, search, category))
  }

  /** `AddActorToToolsArgsSchema.parse(args).actorName`. */
  function ParseAddArgs(args: Json): (r: Result<string>)
    ensures r.Ok? <==> args.JObj? && "actorName" in args.fields && args.fields["actorName"].JStr?
    ensures r.Ok? ==> r.value == args.fields["actorName"].s
  {
    if !args.JObj? then Err(ZodIssue("(root)")) else StrField(args.fields, "actorName", None)
  }

  /** `RemoveActorToolArgsSchema.parse(args).toolName`: the string, normalised
      by `actorNameToToolName`. */
  function ParseRemoveArgs(args: Json, actorNameToToolName: string -> string): (r: Result<string>)
    ensures r.Ok? <==> args.JObj? && "toolName" in args.fields && args.fields["toolName"].JStr?
    ensures r.Ok? ==> r.value == actorNameToToolName(args.fields["toolName"].s)
  {
    if !args.JObj? then Err(ZodIssue("(root)"))
    else
      var raw :- StrField(args.fields, "toolName", None);
      Ok(actorNameToToolName(raw))
  }

  /** `GetActorDefinition.parse(args)`: an Actor name and a README limit that
      is an integer, by default `ACTOR_README_MAX_LENGTH`. */
  function ParseDetailsArgs(args: Json): (r: Result<(string, int)>)
    ensures r.Ok? ==> args.JObj? && "actorName" in args.fields && args.fields["actorName"] == JStr(r.value.0)
    ensures args.JObj? && "actorName" in args.fields && args.fields["actorName"].JStr? && "limit" !in args.fields ==>
      r == Ok((args.fields["actorName"].s, ActorReadmeMaxLength))
    ensures r.Ok? <==> (args.JObj? && "actorName" in args.fields && args.fields["actorName"].JStr?
      && IntField(args.fields, "limit", ActorReadmeMaxLength, None, None).Ok?)
    ensures r.Ok? && "limit" in args.fields ==> r.value.1 as real == args.fields["limit"].n
  {
    if !args.JObj? then Err(ZodIssue("(root)"))
    else
      var name :- StrField(args.fields, "actorName", None);
      var limit :- IntField(args.fields, "limit", ActorReadmeMaxLength, None, None);
      Ok((name, limit))
  }

  // ---- tool definitions ----

  const AddToolDescription: string :=
    "Add an Actor to available tools by Actor ID or Actor name. "
    + "Do not execute the Actor, only add it and list it in available tools. "
    + "Never run the tool without user consent! "
    + "For example, add a tool with username/name when user wants to scrape data from a website."

  const RemoveToolDescription: string :=
    "Remove tool by name from available tools. "
    + "For example, when user says, I do not need a tool username/name anymore"

  /** `getActorAutoLoadingTools`: the add and the remove helper tools. */
  function AutoLoadingTools(): (ts: seq<Tool>)
    ensures |ts| == 2
    ensures forall i :: 0 <= i < 2 ==> ts[i].InternalTool? && ts[i].FullName() == Some(ts[i].name)
    ensures ts[0].name == HelperAddTool && ts[0].inputSchema == FromZod(AddActorArgs)
    ensures ts[1].name == HelperRemoveTool && ts[1].inputSchema == FromZod(RemoveActorArgs)
  {
    [ InternalTool(HelperAddTool, HelperAddTool, AddToolDescription, FromZod(AddActorArgs)),
      InternalTool(HelperRemoveTool, HelperRemoveTool, RemoveToolDescription, FromZod(RemoveActorArgs)) ]
  }

  const DiscoverToolDescription: string :=
    "Discover available Actors using full text search using keywords."
    + "Users try to discover Actors using free form query in this case search query needs to be converted to full text search. "
    + "Prefer Actors from Apify as they are generally more reliable and have better support. "
    + "Returns a list of Actors with name, description, run statistics, pricing, starts, and URL. "
    + "You perhaps need to use this tool several times to find the right Actor. "
    + "Limit number of results returned but ensure that relevant results are returned. "

  const DetailsToolDescription: string :=
    "Get documentation, readme, input schema and other details about an Actor. "
    + "For example, when user says, I need to know more about web crawler Actor."
    + "Get details for an Actor with with Actor ID or Actor full name, i.e. username/name."
    + "Limit the length of the README if needed."

  /** `getActorDiscoveryTools`: the discovery and the details helper tools. */
  function DiscoveryTools(): (ts: seq<Tool>)
    ensures |ts| == 2
    ensures forall i :: 0 <= i < 2 ==> ts[i].InternalTool? && ts[i].FullName() == Some(ts[i].name)
    ensures ts[0].name == HelperSearch && ts[0].inputSchema == FromZod(DiscoverActorsArgs)
    ensures ts[1].name == HelperGetToolDetails && ts[1].inputSchema == FromZod(ActorDetailsArgs)
  {
    [ InternalTool(HelperSearch, HelperSearch, DiscoverToolDescription, FromZod(DiscoverActorsArgs)),
      InternalTool(HelperGetToolDetails, HelperGetToolDetails, DetailsToolDescription, FromZod(ActorDetailsArgs)) ]
  }

  const SearchToolDescription: string :=
    "Discover available Actors or MCP-Servers in Apify Store using full text search using keywords."
    + "Users try to discover Actors using free form query in this case search query must be converted to full text search. "
    + "Returns a list of Actors with name, description, run statistics, pricing, starts, and URL. "
    + "You perhaps need to use this tool several times to find the right Actor. "
    + "You should prefer simple keywords over complex queries. "
    + "Limit number of results returned but ensure that relevant results are returned. "
    + "This is not a general search tool, it is designed to search for Actors in Apify Store. "

  /** The `searchActors` tool entry, named by `HelperTools.STORE_SEARCH`. */
  function SearchActorsTool(storeSearchName: string): (t: Tool)
    ensures t.Type() == Internal && t.name == storeSearchName && t.FullName() == Some(storeSearchName)
    ensures t.inputSchema == FromZod(SearchActorsArgs)
  {
    InternalTool(storeSearchName, storeSearchName, SearchToolDescription, FromZod(SearchActorsArgs))
  }

  const EmptySearchMessage: string :=
    "Search string must not be empty. Please provide keywords to search for Actors."

  /** The response of the search tool and the store query it made, if any. */
  datatype SearchOutcome = SearchOutcome(content: seq<Content>, query: Option<StoreQuery>)

  /** `searchActors.call`: an empty or white-space search answers with a fixed
      text and queries nothing; otherwise one text item per pruned Actor,
      holding its JSON, in store order. */
  function SearchActorsCall(args: Json, token: string,
                            listStore: (StoreQuery, string) -> Result<seq<StoreItem>>,
                            stringify: Json -> string): (r: Result<SearchOutcome>)
    ensures ParseDiscoverArgs(args).Err? ==> r == Err(ParseDiscoverArgs(args).error)
    ensures ParseDiscoverArgs(args).Ok? && Trim(ParseDiscoverArgs(args).value.search) == "" ==>
      r == Ok(SearchOutcome([Text(EmptySearchMessage)], None))
    ensures ParseDiscoverArgs(args).Ok? && Trim(ParseDiscoverArgs(args).value.search) != "" ==>
      var a := ParseDiscoverArgs(args).value;
      var q := StoreQuery(a.search, a.limit, a.offset);
      (listStore(q, token).Err? ==> r == Err(listStore(q, token).error))
      && (listStore(q, token).Ok? ==> (r.Ok? && r.value.query == Some(q)
          && |r.value.content| == |listStore(q, token).value|
          && forall i :: 0 <= i < |r.value.content| ==>
               r.value.content[i] == Text(stringify(PrunedToJson(Prune(listStore(q, token).value[i]))))))
  {
    var parsed :- ParseDiscoverArgs(args);
    if parsed.search == "" || Trim(parsed.search) == "" then
      Ok(SearchOutcome([Text(EmptySearchMessage)], None))
    else
      var q := StoreQuery(parsed.search, parsed.limit, parsed.offset);
      var actors :- SearchActorsByKeywords(q, token, listStore);
      Ok(SearchOutcome(seq(|actors|, i requires 0 <= i < |actors| => Text(stringify(PrunedToJson(actors[i])))), Some(q)))
  }

  /** A search string is blank exactly when it consists of white space only. */
  lemma BlankSearchNeverQueries(args: Json, token: string,
                                listStore: (StoreQuery, string) -> Result<seq<StoreItem>>, stringify: Json -> string)
    requires ParseDiscoverArgs(args).Ok?
    requires forall i :: 0 <= i < |ParseDiscoverArgs(args).value.search| ==> IsWhiteSpace(ParseDiscoverArgs(args).value.search[i])
    ensures SearchActorsCall(args, token, listStore, stringify) == Ok(SearchOutcome([Text(EmptySearchMessage)], None))
  {
    TrimEmptyIffBlank(ParseDiscoverArgs(args).value.search);
  }
}
