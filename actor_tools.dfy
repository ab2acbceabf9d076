/** Resolution of Actors into tools (src/tools/actor.ts): normal Actors are
    built from their definitions through an expiring cache, Actors that are
    MCP servers contribute the tools of that server. */
module ActorTools {
  import opened Wrappers
  import opened JsValues
  import opened Constants
  import opened Types

  /** A cached tool and the time (ms) until which it may be used. */
  datatype CacheEntry = CacheEntry(tool: Tool, expiresAt: int)

  /** The bounded tool cache keyed by Actor id. Which entry makes room for a
      new one is left open: any other entry may be evicted. */
  class ToolCache {
    const maxLength: nat
    var entries: map<string, CacheEntry>

    ghost predicate Valid()
      reads this
    {
      |entries| <= maxLength
    }

    constructor(maxLength: nat)
      ensures Valid() && this.maxLength == maxLength && entries == map[]
    {
      this.maxLength := maxLength;
      entries := map[];
    }

    /** `get`: the entry stored under `key`, if any. */
    function Get(key: string): (e: Option<CacheEntry>)
      reads this
      ensures e.Some? <==> key in entries
      ensures e.Some? ==> e.value == entries[key]
    {
      if key in entries then Some(entries[key]) else None
    }

    /** `add`: a key already present keeps its entry and nothing changes;
        a new key is stored, and in a full cache some other entry is evicted
        to make room (with no room at all nothing is kept). */
    method Add(key: string, entry: CacheEntry)
      requires Valid()
      modifies this
      ensures Valid()
      ensures key in old(entries) ==> entries == old(entries)
      ensures key !in old(entries) && maxLength > 0 ==> key in entries && entries[key] == entry
      ensures forall k :: k in entries && k != key ==> k in old(entries) && entries[k] == old(entries)[k]
      ensures key !in old(entries) && |old(entries)| < maxLength ==> entries == old(entries)[key := entry]
    {
      if key in entries {
        return;
      }
      if |entries| == maxLength {
        if maxLength == 0 {
          return;
        }
        assert entries.Keys != {};
        var victim :| victim in entries;
        entries := entries - {victim};
      }
      entries := entries[key := entry];
    }
  }

  /** A cache entry is used only while it has not expired: `expiresAt > now`. */
  predicate IsHit(entries: map<string, CacheEntry>, id: string, now: int) {
    id in entries && entries[id].expiresAt > now
  }

  /** The tools served from the cache, in request order: the tool of the
      entry of each id `CachedIds` lists. */
  function CachedTools(entries: map<string, CacheEntry>, actors: seq<string>, now: int): (tools: seq<Tool>)
    ensures |tools| == |CachedIds(entries, actors, now)|
    ensures forall i :: 0 <= i < |tools| ==>
      CachedIds(entries, actors, now)[i] in entries && tools[i] == entries[CachedIds(entries, actors, now)[i]].tool
  {
    if |actors| == 0 then []
    else
      var last := actors[|actors| - 1];
      CachedTools(entries, actors[..|actors| - 1], now) + (if IsHit(entries, last, now) then [entries[last].tool] else [])
  }

  /** The ids served from the cache, in request order. */
  function CachedIds(entries: map<string, CacheEntry>, actors: seq<string>, now: int): (ids: seq<string>)
    ensures forall id :: id in ids <==> id in actors && IsHit(entries, id, now)
  {
    if |actors| == 0 then []
    else
      var last := actors[|actors| - 1];
      CachedIds(entries, actors[..|actors| - 1], now) + (if IsHit(entries, last, now) then [last] else [])
  }

  /** The requested ids not served from the cache, in request order. */
  function Misses(entries: map<string, CacheEntry>, actors: seq<string>, now: int): (ids: seq<string>)
    ensures forall id :: id in ids <==> id in actors && !IsHit(entries, id, now)
  {
    if |actors| == 0 then []
    else
      var last := actors[|actors| - 1];
      Misses(entries, actors[..|actors| - 1], now) + (if IsHit(entries, last, now) then [] else [last])
  }

  /** `xs.filter((id) => !excluded.includes(id))`. */
  function FilterOut(xs: seq<string>, excluded: seq<string>): (ys: seq<string>)
    ensures |ys| <= |xs|
    ensures forall id :: id in ys <==> id in xs && id !in excluded
  {
    if |xs| == 0 then []
    else
      var last := xs[|xs| - 1];
      FilterOut(xs[..|xs| - 1], excluded) + (if last in excluded then [] else [last])
  }

  /** Filtering out the cache hits leaves exactly the misses, in order. */
  lemma {:induction false} FilterOutHitsIsMisses(entries: map<string, CacheEntry>, actors: seq<string>, hits: seq<string>, now: int)
    requires forall id :: id in actors ==> (id in hits <==> IsHit(entries, id, now))
    ensures FilterOut(actors, hits) == Misses(entries, actors, now)
  {
    if |actors| > 0 {
      FilterOutHitsIsMisses(entries, actors[..|actors| - 1], hits, now);
    }
  }

  /** What `getActorDefinition` yields for an Actor; `input` is its input
      schema document and `defaultMemoryMbytes` its default run memory. */
  datatype ActorDefinition = ActorDefinition(
    actorFullName: string, description: string,
    input: Option<map<string, Json>>, defaultMemoryMbytes: Option<int>)

  /** The calls into the platform, the MCP client and the schema library. */
  datatype ActorBackend = ActorBackend(
    // getActorDefinition: `None` when the Actor has no definition
    getDefinition: (string, string) -> Option<ActorDefinition>,
    // the five property transformations, applied to an input schema with `properties`
    transformProperties: map<string, Json> -> Json,
    // whether Ajv compiles the schema (compilation throws otherwise)
    compiles: Json -> bool,
    actorNameToToolName: string -> string,
    isActorMcpServer: (string, string) -> Result<bool>,
    mcpServerUrl: (string, string) -> Result<string>,
    // createMCPClient: a client handle
    createClient: (string, string) -> Result<nat>,
    // getMCPServerTools(actorId, client, url)
    serverTools: (string, nat, string) -> Result<seq<Tool>>)

  /** The input schema after the property transformations, which run only
      when the schema has `properties`. */
  function PreparedInput(input: Option<map<string, Json>>, transform: map<string, Json> -> Json)
    : (r: Option<map<string, Json>>)
    ensures input.None? ==> r.None?
    ensures input.Some? && "properties" !in input.value ==> r == input
    ensures input.Some? && "properties" in input.value ==>
      r == Some(input.value["properties" := transform(input.value)])
  {
    match input
    case None => None
    case Some(m) => if "properties" in m then Some(m["properties" := transform(m)]) else input
  }

  /** `min(memoryMbytes || 4096, 4096)`. */
  function MemoryCeiling(memory: Option<int>): (m: int)
    ensures m <= ActorMaxMemoryMbytes
    ensures memory.None? || memory == Some(0) ==> m == ActorMaxMemoryMbytes
    ensures memory.Some? && memory.value != 0 && memory.value <= ActorMaxMemoryMbytes ==> m == memory.value
  {
    var requested := if memory.None? || memory.value == 0 then ActorMaxMemoryMbytes else memory.value;
    if requested > ActorMaxMemoryMbytes then ActorMaxMemoryMbytes else requested
  }

  /** The tool built from a definition; `None` when the schema does not compile. */
  function BuildFrom(d: ActorDefinition, backend: ActorBackend): (t: Option<Tool>)
    ensures var schema := JObj(PreparedInput(d.input, backend.transformProperties).GetOr(map[]));
      t.Some? <==> backend.compiles(schema)
    ensures t.Some? ==>
      (&& t.value.Type() == Actor
       && t.value.name == backend.actorNameToToolName(d.actorFullName)
       && t.value.actorFullName == d.actorFullName
       && t.value.description == d.description + " Instructions: " + ActorAdditionalInstructions
       && t.value.Memory() == Some(MemoryCeiling(d.defaultMemoryMbytes)))
  {
    var schema := JObj(PreparedInput(d.input, backend.transformProperties).GetOr(map[]));
    if !backend.compiles(schema) then None
    else
      Some(ActorTool(backend.actorNameToToolName(d.actorFullName), d.actorFullName,
                     d.description + " Instructions: " + ActorAdditionalInstructions,
                     Document(schema), Some(MemoryCeiling(d.defaultMemoryMbytes))))
  }

  /** Building an Actor's tool: nothing when there is no definition. */
  function Build(id: string, token: string, backend: ActorBackend): Option<Tool> {
    match backend.getDefinition(id, token)
    case None => None
    case Some(d) => BuildFrom(d, backend)
  }

  /** The tools built for the ids, in order, skipping those that fail. */
  function BuiltTools(ids: seq<string>, token: string, backend: ActorBackend): seq<Tool> {
    if |ids| == 0 then []
    else
      var last := Build(ids[|ids| - 1], token, backend);
      BuiltTools(ids[..|ids| - 1], token, backend) + (if last.Some? then [last.value] else [])
  }

  /** A failed Actor drops out and leaves the others' tools in place. */
  lemma {:induction false} BuiltToolsSkipFailure(ids1: seq<string>, id: string, ids2: seq<string>, token: string, backend: ActorBackend)
    requires Build(id, token, backend).None?
    ensures BuiltTools(ids1 + [id] + ids2, token, backend) == BuiltTools(ids1 + ids2, token, backend)
    decreases |ids2|
  {
    if |ids2| == 0 {
      assert ids1 + [id] + ids2 == ids1 + [id];
      assert (ids1 + [id])[..|ids1 + [id]| - 1] == ids1;
      assert ids1 + ids2 == ids1;
    } else {
      var init := ids2[..|ids2| - 1];
      BuiltToolsSkipFailure(ids1, id, init, token, backend);
      assert (ids1 + [id] + ids2)[..|ids1 + [id] + ids2| - 1] == ids1 + [id] + init;
      assert (ids1 + ids2)[..|ids1 + ids2| - 1] == ids1 + init;
    }
  }

  /** Every tool built from a list has been built for some id in it. */
  lemma {:induction false} BuiltToolsFrom(ids: seq<string>, token: string, backend: ActorBackend)
    ensures forall t :: t in BuiltTools(ids, token, backend) ==>
      exists j :: 0 <= j < |ids| && Build(ids[j], token, backend) == Some(t)
  {
    if |ids| > 0 {
      var init := ids[..|ids| - 1];
      BuiltToolsFrom(init, token, backend);
      forall t | t in BuiltTools(ids, token, backend)
        ensures exists j :: 0 <= j < |ids| && Build(ids[j], token, backend) == Some(t)
      {
        if t in BuiltTools(init, token, backend) {
          var j :| 0 <= j < |init| && Build(init[j], token, backend) == Some(t);
          assert ids[j] == init[j];
        } else {
          assert Build(ids[|ids| - 1], token, backend) == Some(t);
        }
      }
    }
  }

  /** Every entry of `after` is an entry of `before` or the fresh entry of a
      tool built for one of `loaded`, stamped `expiresAt`. */
  ghost predicate OnlyFreshEntries(before: map<string, CacheEntry>, after: map<string, CacheEntry>,
                                   loaded: seq<string>, token: string, backend: ActorBackend, expiresAt: int) {
    forall k :: k in after ==>
      (k in before && after[k] == before[k])
      || (k in loaded && Build(k, token, backend).Some? && after[k] == CacheEntry(Build(k, token, backend).value, expiresAt))
  }

  /** Every entry of `before` is still in `after`, unchanged. */
  ghost predicate KeepsEntries(before: map<string, CacheEntry>, after: map<string, CacheEntry>) {
    forall k :: k in before ==> k in after && after[k] == before[k]
  }

  /** An expired entry that a refresh keeps (the cache's `add` leaves a
      present key alone) is still expired at any later lookup, so its id is
      fetched again. */
  lemma ExpiredEntryStaysMiss(before: map<string, CacheEntry>, after: map<string, CacheEntry>,
                              actors: seq<string>, id: string, now: int, later: int)
    requires KeepsEntries(before, after)
    requires id in actors && id in before && !IsHit(before, id, now) && now <= later
    ensures id in Misses(after, actors, later)
  {
  }

  /** `getNormalActorsAsTools`. `now` is the clock during the cache lookups,
      `loadedAt` the clock when the fresh entries are stamped. */
  method GetNormalActorsAsTools(actors: seq<string>, token: string, now: int, loadedAt: int, ttlSecs: int,
                                cache: ToolCache, backend: ActorBackend)
    returns (tools: seq<Tool>, ghost fetched: seq<string>)
    requires cache.Valid()
    modifies cache
    ensures cache.Valid()
    // the definitions fetched are exactly those of the misses, in order
    ensures fetched == Misses(old(cache.entries), actors, now)
    // cached tools in request order, then the freshly built ones
    ensures tools == CachedTools(old(cache.entries), actors, now) + BuiltTools(fetched, token, backend)
    ensures fetched == [] ==> cache.entries == old(cache.entries)
    ensures OnlyFreshEntries(old(cache.entries), cache.entries, fetched, token, backend, loadedAt + ttlSecs * 1000)
    // with room for all of them, no entry is evicted or refreshed (an expired
    // entry stays as it was), and every built tool of a new id is cached
    ensures |old(cache.entries)| + |fetched| <= cache.maxLength ==>
      KeepsEntries(old(cache.entries), cache.entries)
      && forall k :: k in fetched && k !in old(cache.entries) && Build(k, token, backend).Some? ==>
        k in cache.entries && cache.entries[k] == CacheEntry(Build(k, token, backend).value, loadedAt + ttlSecs * 1000)
  {
    var loadedFromCache;
    tools, loadedFromCache := LookupCached(actors, now, cache);
    FilterOutHitsIsMisses(cache.entries, actors, loadedFromCache, now);
    var toLoad := FilterOut(actors, loadedFromCache);
    fetched := toLoad;
    if |toLoad| == 0 {
      assert BuiltTools(toLoad, token, backend) == [];
      assert tools + [] == tools;
      return;
    }
    var results := seq(|toLoad|, j requires 0 <= j < |toLoad| => backend.getDefinition(toLoad[j], token));
    var built := LoadDefinitions(toLoad, results, token, loadedAt + ttlSecs * 1000, cache, backend);
    tools := tools + built;
  }

  /** The first loop of `getNormalActorsAsTools`: the unexpired cached tools
      and their ids, in request order. */
  method LookupCached(actors: seq<string>, now: int, cache: ToolCache)
    returns (tools: seq<Tool>, loadedFromCache: seq<string>)
    ensures tools == CachedTools(cache.entries, actors, now)
    ensures loadedFromCache == CachedIds(cache.entries, actors, now)
  {
    tools, loadedFromCache := [], [];
    for i := 0 to |actors|
      invariant tools == CachedTools(cache.entries, actors[..i], now)
      invariant loadedFromCache == CachedIds(cache.entries, actors[..i], now)
    {
      assert actors[..i + 1][..i] == actors[..i];
      var entry := cache.Get(actors[i]);
      if entry.Some? && entry.value.expiresAt > now {
        tools := tools + [entry.value.tool];
        loadedFromCache := loadedFromCache + [actors[i]];
      }
    }
    assert actors[..|actors|] == actors;
  }

  /** The second loop of `getNormalActorsAsTools`: each definition becomes a
      tool and a cache entry, unless it is missing or does not compile. */
  method LoadDefinitions(toLoad: seq<string>, results: seq<Option<ActorDefinition>>, token: string, expiresAt: int,
                         cache: ToolCache, backend: ActorBackend)
    returns (built: seq<Tool>)
    requires |results| == |toLoad|
    requires forall j :: 0 <= j < |toLoad| ==> results[j] == backend.getDefinition(toLoad[j], token)
    requires cache.Valid()
    modifies cache
    ensures cache.Valid()
    ensures built == BuiltTools(toLoad, token, backend)
    ensures OnlyFreshEntries(old(cache.entries), cache.entries, toLoad, token, backend, expiresAt)
    ensures |old(cache.entries)| + |toLoad| <= cache.maxLength ==>
      KeepsEntries(old(cache.entries), cache.entries)
      && forall k :: k in toLoad && k !in old(cache.entries) && Build(k, token, backend).Some? ==>
        k in cache.entries && cache.entries[k] == CacheEntry(Build(k, token, backend).value, expiresAt)
  {
    ghost var entries0 := cache.entries;
    built := [];
    for i := 0 to |results|
      invariant cache.Valid() && |cache.entries| <= |entries0| + i
      invariant built == BuiltTools(toLoad[..i], token, backend)
      invariant OnlyFreshEntries(entries0, cache.entries, toLoad[..i], token, backend, expiresAt)
      invariant |entries0| + |toLoad| <= cache.maxLength ==> KeepsEntries(entries0, cache.entries)
      invariant |entries0| + |toLoad| <= cache.maxLength ==>
        forall k :: k in toLoad[..i] && k !in entries0 && Build(k, token, backend).Some? ==>
          k in cache.entries && cache.entries[k] == CacheEntry(Build(k, token, backend).value, expiresAt)
    {
      assert toLoad[..i + 1][..i] == toLoad[..i];
      assert toLoad[..i + 1] == toLoad[..i] + [toLoad[i]];
      var result := results[i];
      var actorId := toLoad[i];
      if result.Some? {
        var tool := BuildFrom(result.value, backend);
        if tool.Some? {
          built := built + [tool.value];
          cache.Add(actorId, CacheEntry(tool.value, expiresAt));
        }
      }
    }
    assert toLoad[..|results|] == toLoad;
  }

  /** `getMCPServersAsTools` for one Actor: its server's tools. */
  function McpServerTools(id: string, token: string, backend: ActorBackend): Result<seq<Tool>> {
    var url :- backend.mcpServerUrl(id, token);
    var client :- backend.createClient(url, token);
    backend.serverTools(id, client, url)
  }

  /** The tools of all the servers, in order; the first failure ends it. */
  function McpTools(ids: seq<string>, token: string, backend: ActorBackend): Result<seq<Tool>> {
    if |ids| == 0 then Ok([])
    else
      var init :- McpTools(ids[..|ids| - 1], token, backend);
      var last :- McpServerTools(ids[|ids| - 1], token, backend);
      Ok(init + last)
  }

  /** A failing server makes the whole enumeration fail. */
  lemma {:induction false} McpToolsFailureSticks(ids: seq<string>, k: nat, token: string, backend: ActorBackend)
    requires k < |ids| && McpServerTools(ids[k], token, backend).Err?
    ensures McpTools(ids, token, backend).Err?
  {
    if k < |ids| - 1 {
      assert ids[..|ids| - 1][k] == ids[k];
      McpToolsFailureSticks(ids[..|ids| - 1], k, token, backend);
    }
  }

  /** `getMCPServersAsTools`. `created` and `closed` record the client handles
      created and closed: each client that was created is closed, also when
      listing its tools fails. */
  method GetMcpServersAsTools(actors: seq<string>, token: string, backend: ActorBackend)
    returns (r: Result<seq<Tool>>, created: seq<nat>, closed: seq<nat>)
    ensures r == McpTools(actors, token, backend)
    ensures created == closed
  {
    var serverTools: seq<Tool> := [];
    created, closed := [], [];
    for i := 0 to |actors|
      invariant McpTools(actors[..i], token, backend) == Ok(serverTools)
      invariant created == closed
    {
      assert actors[..i + 1][..i] == actors[..i];
      var url := backend.mcpServerUrl(actors[i], token);
      if url.Err? {
        McpToolsPrefixError(actors, i + 1, token, backend);
        return Err(url.error), created, closed;
      }
      var client := backend.createClient(url.value, token);
      if client.Err? {
        McpToolsPrefixError(actors, i + 1, token, backend);
        return Err(client.error), created, closed;
      }
      created := created + [client.value];
      var listed := backend.serverTools(actors[i], client.value, url.value);
      closed := closed + [client.value];
      if listed.Err? {
        McpToolsPrefixError(actors, i + 1, token, backend);
        return Err(listed.error), created, closed;
      }
      serverTools := serverTools + listed.value;
    }
    assert actors[..|actors|] == actors;
    r := Ok(serverTools);
  }

  /** A failure in a prefix is the failure of the whole list. */
  lemma {:induction false} McpToolsPrefixError(actors: seq<string>, n: nat, token: string, backend: ActorBackend)
    requires n <= |actors| && McpTools(actors[..n], token, backend).Err?
    ensures McpTools(actors, token, backend) == McpTools(actors[..n], token, backend)
    decreases |actors| - n
  {
    if n < |actors| {
      assert actors[..n + 1][..n] == actors[..n];
      McpToolsPrefixError(actors, n + 1, token, backend);
    } else {
      assert actors[..n] == actors;
    }
  }

  /** The Actors that are MCP servers, in request order; the first failure ends it. */
  function McpServerIds(actors: seq<string>, token: string, backend: ActorBackend): (r: Result<seq<string>>)
    ensures r.Ok? ==> forall id :: id in r.value ==> id in actors
  {
    if |actors| == 0 then Ok([])
    else
      var init :- McpServerIds(actors[..|actors| - 1], token, backend);
      var last := actors[|actors| - 1];
      var isServer :- backend.isActorMcpServer(last, token);
      Ok(init + (if isServer then [last] else []))
  }

  /** Each Actor goes exactly one way: to the MCP-server path when it is one,
      to the normal path otherwise. */
  lemma {:induction false} McpServerIdsClassify(actors: seq<string>, token: string, backend: ActorBackend)
    requires McpServerIds(actors, token, backend).Ok?
    ensures forall id :: id in actors ==>
      (backend.isActorMcpServer(id, token) == Ok(true) <==> id in McpServerIds(actors, token, backend).value)
  {
    if |actors| > 0 {
      var init := actors[..|actors| - 1];
      McpServerIdsClassify(init, token, backend);
      forall id | id in actors
        ensures backend.isActorMcpServer(id, token) == Ok(true) <==> id in McpServerIds(actors, token, backend).value
      {
        if id != actors[|actors| - 1] {
          assert id in init by {
            var j :| 0 <= j < |actors| && actors[j] == id;
            assert init[j] == id;
          }
        }
      }
    }
  }

  /** `getActorsAsTools`: the normal tools followed by the MCP-server tools. */
  method GetActorsAsTools(actors: seq<string>, token: string, now: int, loadedAt: int, ttlSecs: int,
                          cache: ToolCache, backend: ActorBackend)
    returns (r: Result<seq<Tool>>)
    requires cache.Valid()
    modifies cache
    ensures cache.Valid()
    ensures McpServerIds(actors, token, backend).Err? ==>
      r == Err(McpServerIds(actors, token, backend).error) && cache.entries == old(cache.entries)
    ensures McpServerIds(actors, token, backend).Ok? ==>
      var servers := McpServerIds(actors, token, backend).value;
      var toolActors := FilterOut(actors, servers);
      var normal := CachedTools(old(cache.entries), toolActors, now)
                    + BuiltTools(Misses(old(cache.entries), toolActors, now), token, backend);
      var mcp := McpTools(servers, token, backend);
      r == if mcp.Err? then Err(mcp.error) else Ok(normal + mcp.value)
    // the cache changes as `getNormalActorsAsTools` changes it for the normal Actors
    ensures McpServerIds(actors, token, backend).Ok? ==>
      var misses := Misses(old(cache.entries), FilterOut(actors, McpServerIds(actors, token, backend).value), now);
      && (misses == [] ==> cache.entries == old(cache.entries))
      && OnlyFreshEntries(old(cache.entries), cache.entries, misses, token, backend, loadedAt + ttlSecs * 1000)
      && (|old(cache.entries)| + |misses| <= cache.maxLength ==>
            KeepsEntries(old(cache.entries), cache.entries)
            && forall k :: k in misses && k !in old(cache.entries) && Build(k, token, backend).Some? ==>
              k in cache.entries && cache.entries[k] == CacheEntry(Build(k, token, backend).value, loadedAt + ttlSecs * 1000))
  {
    var servers: seq<string> := [];
    for i := 0 to |actors|
      invariant McpServerIds(actors[..i], token, backend) == Ok(servers)
    {
      assert actors[..i + 1][..i] == actors[..i];
      assert actors[..i + 1][i] == actors[i];
      var isServer := backend.isActorMcpServer(actors[i], token);
      if isServer.Err? {
        assert McpServerIds(actors[..i + 1], token, backend).Err?;
        McpServerIdsPrefixError(actors, i + 1, token, backend);
        return Err(isServer.error);
      }
      if isServer.value {
        servers := servers + [actors[i]];
      } else {
        assert servers + [] == servers;
      }
    }
    assert actors[..|actors|] == actors;
    var toolActors := FilterOut(actors, servers);
    var normalTools, _ := GetNormalActorsAsTools(toolActors, token, now, loadedAt, ttlSecs, cache, backend);
    var mcp, _, _ := GetMcpServersAsTools(servers, token, backend);
    if mcp.Err? {
      return Err(mcp.error);
    }
    r := Ok(normalTools + mcp.value);
  }

  /** A failure in a prefix is the failure of the whole list. */
  lemma {:induction false} McpServerIdsPrefixError(actors: seq<string>, n: nat, token: string, backend: ActorBackend)
    requires n <= |actors| && McpServerIds(actors[..n], token, backend).Err?
    ensures McpServerIds(actors, token, backend) == McpServerIds(actors[..n], token, backend)
    decreases |actors| - n
  {
    if n < |actors| {
      assert actors[..n + 1][..n] == actors[..n];
      McpServerIdsPrefixError(actors, n + 1, token, backend);
    } else {
      assert actors[..n] == actors;
    }
  }
}
