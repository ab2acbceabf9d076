/** Helpers for proxied MCP servers and URL-driven tool selection
    (src/mcp/utils.ts). */
module McpUtils {
  import opened Wrappers
  import opened JsValues
  import opened Strings
  import opened Types
  import opened InputProcessing

  /** A lower-case hexadecimal SHA-256 digest: 64 characters. */
  predicate IsHexDigit(c: char) {
    ('0' <= c <= '9') || ('a' <= c <= 'f')
  }

  type HexDigest = s: string | |s| == 64 && forall i :: 0 <= i < |s| ==> IsHexDigit(s[i])
    witness seq(64, _ => '0')

  /** `getMCPServerID`: the first `idLength` hex characters of SHA-256(url). */
  function ServerId(url: string, sha256: string -> HexDigest, idLength: nat): (id: string)
    ensures |id| == if idLength <= 64 then idLength else 64
    ensures id <= sha256(url)
    ensures forall i :: 0 <= i < |id| ==> IsHexDigit(id[i])
  {
    Take(sha256(url), idLength)
  }

  /** `getProxyMCPServerToolName`: the server id, '-', the remote name, cut
      to `maxLength` characters. */
  function ProxyToolName(url: string, toolName: string, sha256: string -> HexDigest, idLength: nat, maxLength: nat)
    : (name: string)
    ensures |name| <= maxLength
    ensures name <= ServerId(url, sha256, idLength) + "-" + toolName
    ensures |ServerId(url, sha256, idLength) + "-" + toolName| <= maxLength ==>
      name == ServerId(url, sha256, idLength) + "-" + toolName
  {
    Take(ServerId(url, sha256, idLength) + "-" + toolName, maxLength)
  }

  /** Tools proxied from servers with different ids never share a name, as
      long as the id itself fits within the name limit. */
  lemma ProxyNamesSeparateServers(url1: string, url2: string, tool1: string, tool2: string,
                                  sha256: string -> HexDigest, idLength: nat, maxLength: nat)
    requires idLength <= maxLength
    requires ServerId(url1, sha256, idLength) != ServerId(url2, sha256, idLength)
    ensures ProxyToolName(url1, tool1, sha256, idLength, maxLength) != ProxyToolName(url2, tool2, sha256, idLength, maxLength)
  {
    var id1, id2 := ServerId(url1, sha256, idLength), ServerId(url2, sha256, idLength);
    var n1, n2 := ProxyToolName(url1, tool1, sha256, idLength, maxLength), ProxyToolName(url2, tool2, sha256, idLength, maxLength);
    assert |id1| == |id2|;
    assert |n1| >= |id1| && |n2| >= |id2|;
    assert n1[..|id1|] == id1 by { assert (id1 + "-" + tool1)[..|id1|] == id1; }
    assert n2[..|id2|] == id2 by { assert (id2 + "-" + tool2)[..|id2|] == id2; }
  }

  /** Tools of one server whose full names fit keep distinct names. */
  lemma ProxyNamesSeparateTools(url: string, tool1: string, tool2: string,
                                sha256: string -> HexDigest, idLength: nat, maxLength: nat)
    requires tool1 != tool2
    requires |ServerId(url, sha256, idLength) + "-" + tool1| <= maxLength
    requires |ServerId(url, sha256, idLength) + "-" + tool2| <= maxLength
    ensures ProxyToolName(url, tool1, sha256, idLength, maxLength) != ProxyToolName(url, tool2, sha256, idLength, maxLength)
  {
    var prefix := ServerId(url, sha256, idLength) + "-";
    assert (prefix + tool1)[|prefix|..] == tool1;
    assert (prefix + tool2)[|prefix|..] == tool2;
  }

  /** `url.split('?')[1] || ''`. */
  function QueryString(url: string): string {
    var parts := Split(url, '?');
    if |parts| > 1 then parts[1] else ""
  }

  /** Without a '?' there is no query. */
  lemma QueryStringWithoutMark(url: string)
    requires '?' !in url
    ensures QueryString(url) == ""
  {
    SplitWithoutSeparator(url, '?');
  }

  /** With a first '?' at `k`, the query is what follows it up to the next
      '?' or the end of the URL. */
  lemma QueryStringAfterFirstMark(url: string, k: nat)
    requires k < |url| && url[k] == '?' && '?' !in url[..k]
    ensures var q := QueryString(url);
      && k + 1 + |q| <= |url| && q == url[k + 1..k + 1 + |q|]
      && '?' !in q && (k + 1 + |q| == |url| || url[k + 1 + |q|] == '?')
  {
    SplitAtFirst(url, '?', k);
    var rest := url[k + 1..];
    SplitFirstPiece(rest, '?');
    assert QueryString(url) == Split(rest, '?')[0];
  }

  /** What `querystring.parse` yields: every value a string or an array of strings. */
  predicate IsQueryValue(v: Json) {
    v.JStr? || (v.JArr? && forall i :: 0 <= i < |v.items| ==> v.items[i].JStr?)
  }

  type QueryParams = m: map<string, Json> | forall k :: k in m ==> IsQueryValue(m[k])
    witness map[]

  /** `parseInputParamsFromUrl`: the query string parsed by `parse` and then
      normalised as server input. */
  function ParseInputParamsFromUrl(url: string, parse: string -> QueryParams): (r: Result<map<string, Json>>)
    ensures r == ProcessInput(parse(QueryString(url)))
    ensures r.Ok? ==> IsStringList(r.value["actors"])
    ensures r.Ok? && "tools" in r.value ==> IsQueryValue(r.value["tools"])
  {
    var params := parse(QueryString(url));
    var r := ProcessInput(params);
    if r.Ok? then QueryInputShape(params); r else r
  }

  /** An array all of whose elements are strings. */
  predicate IsStringList(v: Json) {
    v.JArr? && forall i :: 0 <= i < |v.items| ==> v.items[i].JStr?
  }

  /** Normalising parsed query parameters leaves `actors` a list of strings
      and `tools` a query value. */
  lemma QueryInputShape(params: QueryParams)
    requires ProcessInput(params).Ok?
    ensures IsStringList(ProcessInput(params).value["actors"])
    ensures "tools" in ProcessInput(params).value ==> IsQueryValue(ProcessInput(params).value["tools"])
  {
    var r := ProcessInput(params).value;
    if "actors" in params && params["actors"].JStr? {
      assert params["actors"].s != "";
    }
    assert "tools" !in Constants.Defaults();
  }

  /** The strings of a string list. */
  function Texts(v: Json): (r: seq<string>)
    requires IsStringList(v)
    ensures |r| == |v.items| && forall i :: 0 <= i < |r| ==> v.items[i] == JStr(r[i])
  {
    seq(|v.items|, i requires 0 <= i < |v.items| => v.items[i].s)
  }

  /** The keys `for (const toolKey of input.tools)` visits: the characters of
      a string, the elements of an array. */
  function ToolKeys(v: Json): (keys: seq<string>)
    requires IsQueryValue(v)
    ensures v.JStr? ==> |keys| == |v.s| && forall i :: 0 <= i < |keys| ==> keys[i] == [v.s[i]]
    ensures v.JArr? ==> |keys| == |v.items| && forall i :: 0 <= i < |keys| ==> v.items[i] == JStr(keys[i])
  {
    if v.JStr? then seq(|v.s|, i requires 0 <= i < |v.s| => [v.s[i]]) else Texts(v)
  }

  /** The tool lists URL-driven selection draws on. */
  datatype ToolSources = ToolSources(
    actorsAsTools: seq<string> -> Result<seq<Tool>>,
    addRemoveTools: seq<Tool>,
    betaTools: seq<Tool>,
    featureTools: map<string, seq<Tool>>,
    parse: string -> QueryParams)

  /** `featureTools[key] || []`. */
  function KeyTools(featureTools: map<string, seq<Tool>>, key: string): seq<Tool> {
    if key in featureTools then featureTools[key] else []
  }

  /** The feature tools of a list of keys, key by key. */
  function FeatureToolsOf(featureTools: map<string, seq<Tool>>, keys: seq<string>): seq<Tool> {
    if |keys| == 0 then [] else FeatureToolsOf(featureTools, keys[..|keys| - 1]) + KeyTools(featureTools, keys[|keys| - 1])
  }

  /** The feature tools of two key lists are those of the first followed by
      those of the second. */
  lemma {:induction false} FeatureToolsOfAppend(featureTools: map<string, seq<Tool>>, a: seq<string>, b: seq<string>)
    ensures FeatureToolsOf(featureTools, a + b) == FeatureToolsOf(featureTools, a) + FeatureToolsOf(featureTools, b)
    decreases |b|
  {
    if |b| == 0 {
      assert a + b == a;
    } else {
      var b' := b[..|b| - 1];
      assert (a + b)[..|a + b| - 1] == a + b';
      FeatureToolsOfAppend(featureTools, a, b');
    }
  }

  /** A key that names no feature contributes no tools. */
  lemma UnknownFeatureKeyIgnored(featureTools: map<string, seq<Tool>>, a: seq<string>, key: string, b: seq<string>)
    requires key !in featureTools
    ensures FeatureToolsOf(featureTools, a + [key] + b) == FeatureToolsOf(featureTools, a + b)
  {
    FeatureToolsOfAppend(featureTools, a + [key], b);
    FeatureToolsOfAppend(featureTools, a, b);
    assert (a + [key])[..|a + [key]| - 1] == a;
  }

  /** The Actor tools of normalised input; none when `actors` is falsy. */
  function ActorPart(input: map<string, Json>, sources: ToolSources): Result<seq<Tool>>
    requires "actors" in input ==> IsStringList(input["actors"])
  {
    if FieldTruthy(input, "actors") then sources.actorsAsTools(Texts(input["actors"])) else Ok([])
  }

  /** The tools the `enableAddingActors` and `beta` flags switch on, in that order. */
  function FlagPart(input: map<string, Json>, sources: ToolSources): seq<Tool> {
    (if FieldTruthy(input, "enableAddingActors") then sources.addRemoveTools else [])
    + (if FieldTruthy(input, "beta") then sources.betaTools else [])
  }

  /** The tools of the feature keys in `tools`, key by key. */
  function FeaturePart(input: map<string, Json>, sources: ToolSources): seq<Tool>
    requires "tools" in input ==> IsQueryValue(input["tools"])
  {
    if FieldTruthy(input, "tools") then FeatureToolsOf(sources.featureTools, ToolKeys(input["tools"])) else []
  }

  /** The tools selected by normalised input: Actor tools, then the
      add/remove tools, then the beta tools, then each feature key's tools. */
  function SelectedTools(input: map<string, Json>, sources: ToolSources): Result<seq<Tool>>
    requires "actors" in input ==> IsStringList(input["actors"])
    requires "tools" in input ==> IsQueryValue(input["tools"])
  {
    var actorTools := ActorPart(input, sources);
    if actorTools.Err? then Err(actorTools.error)
    else Ok(actorTools.value + FlagPart(input, sources) + FeaturePart(input, sources))
  }

  /** `processParamsGetTools` (with `getActorsAsTools` and the tool lists as
      parameters). */
  method ProcessParamsGetTools(url: string, sources: ToolSources) returns (r: Result<seq<Tool>>)
    ensures var input := ParseInputParamsFromUrl(url, sources.parse);
      r == if input.Err? then Err(input.error) else SelectedTools(input.value, sources)
  {
    var parsed := ParseInputParamsFromUrl(url, sources.parse);
    if parsed.Err? {
      return Err(parsed.error);
    }
    r := AssembleTools(parsed.value, sources);
  }

  /** The body of `processParamsGetTools` after the input is parsed. */
  method AssembleTools(input: map<string, Json>, sources: ToolSources) returns (r: Result<seq<Tool>>)
    requires "actors" in input ==> IsStringList(input["actors"])
    requires "tools" in input ==> IsQueryValue(input["tools"])
    ensures r == SelectedTools(input, sources)
  {
    var tools: seq<Tool> := [];
    if FieldTruthy(input, "actors") {
      var loaded := sources.actorsAsTools(Texts(input["actors"]));
      if loaded.Err? {
        return Err(loaded.error);
      }
      tools := loaded.value;
    }
    ghost var actorTools := tools;
    tools := AddFlagTools(input, sources, tools);
    if FieldTruthy(input, "tools") {
      var keys := ToolKeys(input["tools"]);
      tools := AddFeatureTools(sources.featureTools, keys, tools);
    } else {
      assert tools == tools + [];
    }
    r := Ok(tools);
  }

  /** The two flag-guarded `push`es. */
  method AddFlagTools(input: map<string, Json>, sources: ToolSources, tools0: seq<Tool>) returns (tools: seq<Tool>)
    ensures tools == tools0 + FlagPart(input, sources)
  {
    tools := tools0;
    if FieldTruthy(input, "enableAddingActors") {
      tools := tools + sources.addRemoveTools;
    }
    if FieldTruthy(input, "beta") {
      tools := tools + sources.betaTools;
    }
  }

  /** The loop over the feature keys. */
  method AddFeatureTools(featureTools: map<string, seq<Tool>>, keys: seq<string>, tools0: seq<Tool>) returns (tools: seq<Tool>)
    ensures tools == tools0 + FeatureToolsOf(featureTools, keys)
  {
    tools := tools0;
    for i := 0 to |keys|
      invariant tools == tools0 + FeatureToolsOf(featureTools, keys[..i])
    {
      assert keys[..i + 1][..i] == keys[..i];
      tools := tools + KeyTools(featureTools, keys[i]);
    }
    assert keys[..|keys|] == keys;
  }

  /** With no selection flags and no feature keys, only the Actor tools remain. */
  lemma SelectedToolsOnlyActors(input: map<string, Json>, sources: ToolSources)
    requires "actors" in input && IsStringList(input["actors"])
    requires "tools" in input ==> IsQueryValue(input["tools"])
    requires !FieldTruthy(input, "enableAddingActors") && !FieldTruthy(input, "beta") && !FieldTruthy(input, "tools")
    ensures SelectedTools(input, sources) == sources.actorsAsTools(Texts(input["actors"]))
  {
    var loaded := sources.actorsAsTools(Texts(input["actors"]));
    assert FlagPart(input, sources) == [] + [];
    assert FeaturePart(input, sources) == [];
    if loaded.Ok? {
      assert loaded.value + ([] + []) + [] == loaded.value;
    }
  }
}
