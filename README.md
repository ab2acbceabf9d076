# Apify Actors MCP server — verified model of the tool registry and dispatcher

This project models, in Dafny, the core of the Apify Actors MCP server. The server is a
gateway that exposes Apify Actors as tools to MCP clients. The model covers:

- the server's in-memory tool registry, an insertion-ordered `Map` from tool name to tool
  (`ToolRegistry`, `McpServer.ApifyMcpServer`);
- the call handler (`McpServer`): it finds the tool by name or Actor full name, checks
  that arguments are present, runs the validator, then switches on the requested name
  (add, remove, discover, details, or run an Actor). It wraps failures, truncates Actor
  output per item and sends list-changed notifications;
- the resolution of Actors into tools (`ActorTools`): a bounded, expiring cache; tools
  built from Actor definitions with a clamped memory limit and a fixed description
  suffix; MCP-server Actors whose clients are always closed;
- URL-driven tool selection and proxied tool names (`McpUtils`);
- server input normalisation (`InputProcessing`) and the deployment entry point with its
  one-shot placeholder-token retry (`Smithery`);
- Actor Store search with record pruning and argument bounds (`StoreSearch`);
- the API client's User-Agent interceptor and base URL (`ApifyClientConfig`).

ECMAScript values are the `JsValues.Json` datatype. An absent record key stands for
`undefined`, and `Truthy` is ECMAScript `ToBoolean`. A thrown `Error` is `Wrappers.Result`'s
`Err` carrying the error's message, and `Rendered` is how that error reads inside a
template literal. Failures of foreign code are assumed to render the same way, as a plain
`Error` does; a `ZodError` or a named API error renders differently. Code outside the core is passed in as function-typed parameters:

- Ajv, zod, `JSON.stringify`, `querystring.parse` and SHA-256;
- `actorNameToToolName` and the schema transformations;
- the platform, store and MCP-client calls.

Clock readings are passed in as parameters too.

The source files come from more than one revision of the repository. Where they disagree,
the model follows the code of each file:

- `src/mcp-server.ts` and `src/tools.ts` name the helper tools through `InternalTools`,
  which `src/const.ts` does not define. The dispatcher uses the `HelperTools` values that
  `src/const.ts` does define: `search`, `add-tool`, `remove-tool` and `get-tool-details`.
- `SERVER_ID_LENGTH`, `MAX_TOOL_NAME_LENGTH`, `TOOL_CACHE_TTL_SECS`, `TOOL_CACHE_MAX_SIZE`,
  `PLACEHOLDER_APIFY_TOKEN` and `HelperTools.STORE_SEARCH` are not in `src/const.ts`, so they
  are parameters.
- `src/input.ts` declares `processInput` `async`. `src/mcp/utils.ts` uses its result as a
  value, and `src/mcp-server.ts` awaits it. The model treats its result as the resolved input.
- `src/mcp-server.ts` gets `getActorsAsTools` and `getActorDefinition` from `src/actors.js`,
  which is not part of this model, so the server takes them as parameters. The cached
  resolver of `src/tools/actor.ts` is modelled separately, as `ActorTools`.
- `src/smithery.ts` constructs the newer `ActorsMcpServer` and calls `upsertTools`. That
  class is not part of this model; the upsert is modelled by `ApifyMcpServer.UpdateTools`.

## Model

| member | source | states |
|---|---|---|
| Strings.Split | src/input.ts:14 | `split(',')` yields at least one piece |
| Strings.SplitJoin | src/input.ts:14 | joining the pieces with the separator gives back the string |
| Strings.SplitPiecesLackSeparator | src/input.ts:14 | no piece contains the separator |
| Strings.SplitCount | src/input.ts:14 | a split has one piece more than the string has separators |
| Strings.SplitAtFirst | src/mcp/utils.ts:68 | splitting at the first separator gives the piece before it followed by the split of the rest |
| Strings.SplitFirstPiece | src/mcp/utils.ts:68 | the first piece is a separator-free prefix ending at the end or just before a separator |
| Strings.Trim | src/input.ts:14 | the trimmed string neither starts nor ends with white space |
| Strings.TrimIdempotent | src/input.ts:14 | trimming a trimmed string changes nothing |
| Strings.TrimEmptyIffBlank | src/tools/store_collection.ts:91 | `trim() === ''` exactly when every character is white space |
| ToolRegistry.Set | src/mcp-server.ts:129 | `set` keeps one entry per key and stores the tool under its name |
| ToolRegistry.Values | src/mcp-server.ts:154 | the listed tools are the entries in key order, one per key |
| ToolRegistry.SetAllLastWins | src/mcp-server.ts:127-132 | after `updateTools(ts)` each name of `ts` maps to the last tool with that name; every other key keeps its entry or stays absent |
| ToolRegistry.LastNamedFound | src/mcp-server.ts:127-132 | a last tool of a name exists exactly for the names occurring in `ts` |
| ToolRegistry.SetAllKeepsOrder | src/mcp-server.ts:138-140 | the old key order is a prefix of the new one (a replaced name keeps its position), and only names of `ts` are added |
| ToolRegistry.SetAllEntry | src/mcp-server.ts:127-132 | after `updateTools(ts)` a name of `ts` holds its last tool, and any other key keeps its old entry or stays absent |
| ToolRegistry.SetAllKeyed | src/mcp-server.ts:129 | every tool stays stored under its own name |
| ToolRegistry.UpsertListing | src/mcp-server.ts:127-132 | a new name lists exactly one more tool, at the end; an existing name keeps the count and is replaced in place |
| ToolRegistry.DeleteEffect | src/mcp-server.ts:187 | `delete` removes exactly that name, keeps every other entry, and is the identity on an absent name |
| ToolRegistry.DeleteKeepsOrder | src/mcp-server.ts:187 | `delete` of a present name cuts it out of the key order at its position; the keys before and after it keep their relative order |
| ToolRegistry.Without | src/mcp-server.ts:187 | the key order without the deleted name |
| ToolRegistry.FindIndex | src/mcp-server.ts:165 | the position of the first tool matching by `name` or `actorFullName` |
| ToolRegistry.Find | src/mcp-server.ts:165 | `find` returns the first tool in map order that matches, and nothing exactly when none matches |
| McpServer.TruncatedText | src/mcp-server.ts:211-216 | shorter than 5000 characters (Unicode scalar values): unchanged; otherwise the first 5000, " ... " and the truncation message |
| McpServer.TruncatedAtExactLimit | src/mcp-server.ts:213 | a text of exactly 5000 characters (Unicode scalar values) also gets the marker |
| McpServer.ActorOutput | src/mcp-server.ts:211-216 | one text item per dataset item, in order |
| McpServer.CallActorGetDataset | src/mcp-server.ts:89-115 | the run's items, or its failure wrapped as "Error calling actor: …" |
| McpServer.DetailsView | src/mcp-server.ts:203-207 | only `input.properties` of a definition is replaced, and only when it exists |
| McpServer.Guard | src/mcp-server.ts:165-175 | guards in order: unknown tool, then missing or falsy arguments, then validator rejection, with the source's messages |
| McpServer.Routed | src/mcp-server.ts:178-219 | the switch on the requested name; only add and remove change the registry or notify, and a failed branch changes nothing |
| McpServer.WrapToolError | src/mcp-server.ts:220-223 | any failure inside the switch becomes "Error calling tool: …" |
| McpServer.RemoveToolEffect | src/mcp-server.ts:185-190 | `remove-tool` deletes the normalised name, present or not, keeps all other tools and notifies exactly once |
| McpServer.AddToolGrowsByOne | src/mcp-server.ts:179-184 | `add-tool` resolving one new tool lists exactly one more tool, last, and notifies exactly once |
| McpServer.ActorCallOutput | src/mcp-server.ts:209-217 | the default branch runs the Actor once with the tool's `memoryMbytes` and answers with one truncated item per dataset item |
| McpServer.ApifyMcpServer.constructor | src/mcp-server.ts:48-63 | a new server has an empty registry and has sent and called nothing |
| McpServer.ApifyMcpServer.UpdateTools | src/mcp-server.ts:127-132 | the loop leaves the registry equal to `set` applied to each tool in turn |
| McpServer.ApifyMcpServer.GetToolNames | src/mcp-server.ts:138-140 | the key order lists each registered name exactly once |
| McpServer.ApifyMcpServer.ListTools | src/mcp-server.ts:153-155 | the tools in the order of their names, each stored under its name |
| McpServer.ApifyMcpServer.AddToolsFromActors | src/mcp-server.ts:117-121 | resolves the Actors once and upserts the resolved tools; a failure changes nothing |
| McpServer.ApifyMcpServer.AddToolsFromDefaultActors | src/mcp-server.ts:123-125 | the same for the three default Actors |
| McpServer.ApifyMcpServer.CallTool | src/mcp-server.ts:162-224 | a failed guard changes nothing and calls nothing; otherwise the new state, notifications and calls are those of the switch, with errors wrapped |
| McpServer.ApifyMcpServer.RunSwitch | src/mcp-server.ts:177-219 | the imperative switch has exactly the outcome of `Routed` |
| McpServer.StartupRegistry | src/mcp-server.ts:242-247 | fails exactly when truthy `actors` fail to resolve; otherwise each resolved tool is upserted (the last of a name wins) unless an auto-loading tool takes its name, every other key keeps its entry, the old key order stays a prefix, and a truthy `enableActorAutoLoading` leaves the add and remove tools registered; with neither flag nothing changes |
| McpServer.StartupEntries | src/mcp-server.ts:242-247 | upserting the Actor tools and then the auto-loading tools leaves every key the auto-loading tools do not overwrite as the Actor upsert left it |
| McpServer.StartupInput | src/mcp-server.ts:237-241 | the query of the URL without `token`, normalised; on success `actors` is a list of strings |
| McpServer.Startup | src/mcp-server.ts:237-247 | a normalisation failure is the result; otherwise exactly the start-up update of the normalised input |
| McpServer.StartupCalls | src/mcp-server.ts:242-244 | at most one external call, and none when normalisation fails |
| McpServer.ProcessParamsAndUpdateTools | src/mcp-server.ts:237-250 | drops `token` from the query, leaves the registry as `Startup` says, sends no notification, and records one Actor resolution exactly when the normalised `actors` are truthy |
| McpServer.AutoLoadingFromQueryText | src/mcp-server.ts:245-246 | the query text `enableActorAutoLoading=false` is truthy and switches auto-loading on |
| ActorTools.ToolCache.constructor | src/tools/actor.ts:63-65 | an empty cache of the given bound |
| ActorTools.ToolCache.Get | src/tools/actor.ts:94 | the stored entry of a key, if any |
| ActorTools.ToolCache.Add | src/tools/actor.ts:138-141 | a present key keeps its entry and nothing changes; a new key is stored (unless the bound is 0); other entries only vanish (eviction) and never change; with room, nothing is evicted |
| ActorTools.CachedTools | src/tools/actor.ts:93-99 | one tool per id served from the cache, the tool of that id's entry, in request order |
| ActorTools.CachedIds | src/tools/actor.ts:93-99 | an id is served from the cache exactly when it has an entry with `expiresAt > now` |
| ActorTools.Misses | src/tools/actor.ts:100 | the ids to load are exactly the requested ids without an unexpired entry, in order |
| ActorTools.FilterOut | src/tools/actor.ts:100 | `filter(!includes)` keeps exactly the elements not excluded |
| ActorTools.FilterOutHitsIsMisses | src/tools/actor.ts:100 | filtering out the ids served from the cache leaves the misses |
| ActorTools.PreparedInput | src/tools/actor.ts:117-123 | the property transformations run only on an input schema with `properties` |
| ActorTools.MemoryCeiling | src/tools/actor.ts:125-134 | never above 4096; a missing or 0 memory gives 4096; other values up to 4096 are kept |
| ActorTools.BuildFrom | src/tools/actor.ts:124-136 | a tool exists exactly when the schema compiles; it is an Actor tool with the mapped name, the full name, the description suffix and the clamped memory |
| ActorTools.BuiltToolsSkipFailure | src/tools/actor.ts:112-146 | an Actor without a definition or compilable schema drops out and the others' tools stay |
| ActorTools.BuiltToolsFrom | src/tools/actor.ts:112-146 | every built tool comes from one of the loaded ids |
| ActorTools.LookupCached | src/tools/actor.ts:93-99 | the first loop yields the unexpired cached tools and their ids, in request order |
| ActorTools.LoadDefinitions | src/tools/actor.ts:109-146 | the second loop yields the built tools; new cache entries hold a built tool stamped `now + TTL*1000`; with room, no entry is evicted or refreshed and each built tool of an id without an entry is cached |
| ActorTools.GetNormalActorsAsTools | src/tools/actor.ts:87-148 | cached tools then freshly built ones; definitions are fetched for the misses only; with no misses the cache is unchanged; with room, old entries (expired ones included) stay as they were and each built tool of an id without an entry is cached |
| ActorTools.ExpiredEntryStaysMiss | src/tools/actor.ts:93-141 | an expired entry that a refresh keeps is still a miss at every later lookup, so its id is fetched again |
| ActorTools.McpToolsFailureSticks | src/tools/actor.ts:155-167 | one failing server makes the enumeration fail |
| ActorTools.McpToolsPrefixError | src/tools/actor.ts:155-167 | a failure among the first servers is the failure of the whole list |
| ActorTools.GetMcpServersAsTools | src/tools/actor.ts:150-170 | the servers' tools in order or the first failure; every created client is closed, also when listing fails |
| ActorTools.McpServerIds | src/tools/actor.ts:179-185 | the MCP-server ids are requested ids |
| ActorTools.McpServerIdsClassify | src/tools/actor.ts:179-187 | an Actor is on the MCP-server path exactly when it is an MCP server; all others go the normal way |
| ActorTools.McpServerIdsPrefixError | src/tools/actor.ts:179-185 | a classification failure ends the loop with that failure |
| ActorTools.GetActorsAsTools | src/tools/actor.ts:172-198 | normal tools followed by MCP-server tools; a classification failure changes nothing; otherwise the cache gains only fresh entries for the normal Actors' misses, is unchanged when there are none, and with room keeps every old entry |
| McpUtils.ServerId | src/mcp/utils.ts:17-21 | the first `SERVER_ID_LENGTH` hex characters of SHA-256(url) |
| McpUtils.ProxyToolName | src/mcp/utils.ts:29-34 | at most the maximum length, a prefix of `id-name`, and exactly `id-name` when that fits |
| McpUtils.ProxyNamesSeparateServers | src/mcp/utils.ts:29-34 | tools of servers with different ids never share a name when the id fits the limit |
| McpUtils.ProxyNamesSeparateTools | src/mcp/utils.ts:29-34 | distinct tools of one server keep distinct names when their names fit |
| McpUtils.QueryStringWithoutMark | src/mcp/utils.ts:68 | no `?` gives the empty query |
| McpUtils.QueryStringAfterFirstMark | src/mcp/utils.ts:68 | the query is the segment after the first `?` up to the next `?` or the end |
| McpUtils.ParseInputParamsFromUrl | src/mcp/utils.ts:67-71 | the normalised query; on success `actors` is a list of strings |
| McpUtils.QueryInputShape | src/mcp/utils.ts:67-71 | normalised query parameters keep `actors` a string list and `tools` a query value |
| McpUtils.Texts | src/mcp/utils.ts:46 | the strings of a string list, in order |
| McpUtils.ToolKeys | src/mcp/utils.ts:57 | `for…of` visits a string's characters or an array's elements |
| McpUtils.FeatureToolsOfAppend | src/mcp/utils.ts:56-63 | the feature tools of two key lists concatenate |
| McpUtils.UnknownFeatureKeyIgnored | src/mcp/utils.ts:59 | an unknown feature key contributes no tools |
| McpUtils.AddFlagTools | src/mcp/utils.ts:50-55 | add/remove tools if `enableAddingActors`, then beta tools if `beta` |
| McpUtils.AddFeatureTools | src/mcp/utils.ts:56-63 | the loop appends each key's tools in key order |
| McpUtils.AssembleTools | src/mcp/utils.ts:44-64 | Actor tools, then the flag tools, then the feature tools |
| McpUtils.ProcessParamsGetTools | src/mcp/utils.ts:42-65 | the selection of the parsed URL input, or its failure |
| McpUtils.SelectedToolsOnlyActors | src/mcp/utils.ts:44-64 | with no flags and no feature keys only the Actor tools remain |
| InputProcessing.Merge | src/input.ts:10 | supplied properties override the defaults, absent ones take them |
| InputProcessing.ActorList | src/input.ts:13-15 | a string `actors` becomes a list with one entry per comma plus one |
| InputProcessing.ProcessInput | src/input.ts:9-20 | fails exactly when the merged `actors` is falsy or of length 0; a string is split and trimmed; an array is kept; absent gives the three defaults; other properties follow `Merge` |
| StoreSearch.Prune | src/tools.ts:108-132 | `username/name` full name from the raw fields; '' for missing strings; pricing '', 0, 0 with existing numbers kept; null stars; `{}` run stats (`src/tools/store_collection.ts:10-34` defines the same pruning) |
| StoreSearch.SearchActorsByKeywords | src/tools/store_collection.ts:36-45 | one pruned record per store item in store order, or the store's failure |
| StoreSearch.IntField | src/tools.ts:12-22 | an integer property within its bounds, or its default when absent |
| StoreSearch.StrField | src/tools.ts:23-31 | a string property, or its default when absent |
| StoreSearch.ParseDiscoverArgs | src/tools.ts:11-32 | fails exactly when `limit` (integer in 1..100), `offset` (integer at least 0), `search` or `category` (strings) is rejected; supplied values pass through, absent ones default to 10, 0, '' and '' (the store-search schema of `src/tools/store_collection.ts:48-69` has the same bounds and defaults) |
| StoreSearch.ParseAddArgs | src/tools.ts:40-44 | succeeds exactly on an object with a string `actorName` |
| StoreSearch.ParseRemoveArgs | src/tools.ts:34-38 | `toolName` must be a string and comes out normalised by `actorNameToToolName` |
| StoreSearch.ParseDetailsArgs | src/tools.ts:46-54 | succeeds exactly for a string `actorName` and an integer or absent `limit`; a supplied `limit` is used, an absent one is 5000 |
| StoreSearch.AutoLoadingTools | src/tools.ts:56-78 | exactly two internal tools, add then remove, each with `name == actorFullName` |
| StoreSearch.DiscoveryTools | src/tools.ts:80-106 | exactly two internal tools, discover then details, each with `name == actorFullName` |
| StoreSearch.SearchActorsTool | src/tools/store_collection.ts:74-87 | an internal tool with `name == actorFullName == STORE_SEARCH` |
| StoreSearch.SearchActorsCall | src/tools/store_collection.ts:88-106 | a blank search answers with the fixed text and makes no query; otherwise one JSON text item per pruned Actor in store order |
| StoreSearch.BlankSearchNeverQueries | src/tools/store_collection.ts:91-98 | an all-white-space search never queries the store |
| ApifyClientConfig.WithUserAgent | src/apify-client.ts:15 | User-Agent becomes the old value (or '') followed by "; Origin/mcp-server"; other headers are unchanged |
| ApifyClientConfig.AddUserAgent | src/apify-client.ts:12-17 | a new config with the same other fields whose headers are the caller's headers object (updated in place) or a new one |
| ApifyClientConfig.AddUserAgentTwice | src/apify-client.ts:15 | applying the interceptor twice appends the suffix twice |
| ApifyClientConfig.ApiBaseUrl | src/apify-client.ts:19-23 | at home always the default URL; otherwise `APIFY_API_BASE_URL` when set, else the default |
| ApifyClientConfig.ClientOptions | src/apify-client.ts:25-33 | the caller's `baseUrl` and `requestInterceptors` are always overridden; the other options pass through |
| Smithery.ApifyToken | src/smithery.ts:23 | the configured token if non-empty, else the environment's if non-empty, else '' |
| Smithery.CommaList | src/smithery.ts:26-27 | '' gives no entries; otherwise split at ',' and trimmed, one entry per comma plus one |
| Smithery.CommaListKeepsEmptyPieces | src/smithery.ts:26 | a non-empty list has one entry per piece, and an entry is '' exactly when its piece is blank: empty pieces are kept |
| Smithery.ParseConfig | src/smithery.ts:21-36 | token rule; `enableAddingActors` true only when missing; Actor and tool lists; defaults loaded exactly for an empty Actor list; `enableDefaultActors` false |
| Smithery.LoadTask | src/smithery.ts:41-56 | the placeholder is tried only after the first attempt fails, and once; only a successful load is upserted; no failure escapes |
| Smithery.Deploy | src/smithery.ts:21-58 | the server starts empty and ends with the tools of the first successful attempt |

## Left out

- Transports, `server.connect`, SIGINT handling, the error hook, logging and
  `blockListToolsUntil` are I/O and are not modelled.
- `Promise.all` and every `await` are modelled as sequential calls.
- The duplicate `addUserAgent` of `src/mcp-server.ts:70-75` matches `src/apify-client.ts`
  and is modelled once.
- `Actor.pushData` when `APIFY_IS_AT_HOME` is set (`src/mcp-server.ts:106-109`) is a
  platform side effect and is not modelled.
- McpServer.TruncatedText: lengths count Unicode scalar values, not the UTF-16 code units
  of `slice` and `length`. A text with characters outside the Basic Multilingual Plane is
  cut and marked at a different point than in the server: 2500 emoji are 5000 code units,
  so the server marks them, while the model leaves them unchanged.
- McpServer.TruncatedAtExactLimit: "exactly 5000" means 5000 scalar values, which is the
  server's 5000 code units only for text within the Basic Multilingual Plane.
- McpServer.DetailsView: an `input` that is truthy but neither an object nor an array makes
  the server's `'properties' in` throw a `TypeError`, which the call handler wraps. The
  model returns such a definition unchanged. The Actor definition type of `src/types.ts`
  rules the case out; the `getDefinition` parameter does not.
- Ajv type coercion: Ajv is built with `coerceTypes: 'array'` (`src/tools.ts:57`,
  `src/tools.ts:81`, `src/tools/actor.ts:105`). In the server, validation rewrites the
  arguments in place, so `{"search":"x","limit":"5"}` reaches the parser with `limit` 5. The
  model's validator only accepts or rejects: the coercion is lost, and the parsers see the
  arguments as sent.
- LRU recency and concurrent cache access are not modelled; only `get` and `add` are.
- The second `callActorGetDataset` of `src/tools/actor.ts:38-60` is not modelled. The
  dispatcher calls the one of `src/mcp-server.ts:89-115`, which is `McpServer.CallActorGetDataset`.
- `getActorDiscoveryTools` (`StoreSearch.DiscoveryTools`) and the store-search tool
  (`StoreSearch.SearchActorsTool`) are defined, but no operation of this model registers
  them. Their registration happens in `src/main.ts`, which is not part of this model.
- Ajv, zod, `zodToJsonSchema`, `JSON.stringify`, `querystring.parse`, SHA-256,
  `actorNameToToolName` and the schema transformations are parameters, not
  re-implementations.
- The text of zod's errors is not modelled: `ZodIssue` stands for it.
- Numbers are reals or integers, so NaN and infinities are not represented. Memory values
  are integers.
- An explicitly `undefined` property is the same as an absent one.
- ActorTools.ToolCache.Add: the library cache `LruCache` of `@apify/datastructures` is not
  part of this model. Its `add` is taken, as the library documents it, to leave a present key
  and its entry unchanged. Under that reading an expired entry is never refreshed by a
  reload (`ActorTools.ExpiredEntryStaysMiss`): its id is fetched again on every call until
  the entry is evicted. Which entry is evicted is left open, and LRU recency on `get` is not
  tracked.
- ActorTools.LoadDefinitions: the with-room clauses rest on the reading of `add` above and
  on eviction happening only in a full cache.
- ActorTools.GetNormalActorsAsTools: the clock is read once for the lookups (`now`) and
  once for the stamps (`loadedAt`), not once per entry. A rejection of
  `getActorDefinition` is not modelled; it yields a definition or nothing.
- ActorTools.GetMcpServersAsTools: `client.close()` is assumed not to fail.
- ActorTools.PreparedInput: the in-place reassignment of `result.input.properties` is
  modelled as a new value. The fetched definition is not used afterwards.
- McpServer.ApifyMcpServer.RunSwitch: `getActorsAsTools` and `getActorDefinition` of
  `src/actors.js` are parameters. An Actor-MCP tool passes an `undefined` Actor name to
  the run.
- McpUtils.ProcessParamsGetTools: `processInput` is treated as returning its value, as
  this file uses it, and not the promise that `src/input.ts` returns. The feature-tool
  lookup does not model inherited object keys.
- McpUtils.ParseInputParamsFromUrl: `querystring.parse` is assumed to return strings or
  arrays of strings only.
- Smithery.LoadTask: `loadToolsFromInput` of `src/utils/tools-loader.js` is not part of this model; it is the `load` parameter. `upsertTools` is assumed not to throw. The server class of
  `src/mcp/server.js` is not part of this model.
- Smithery.ParseConfig: the configuration schema is not part of this model. Its fields
  are treated as optional strings and an optional boolean.
- `searchActorsByKeywords` of `src/tools.ts:134-142` reads the token from the environment.
  The model passes it in, as `src/tools/store_collection.ts:36-45` does.
