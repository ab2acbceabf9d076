/** The tool entities of src/types.ts. */
module Types {
  import opened Wrappers
  import opened JsValues

  /** The discriminator of a wrapped tool. */
  datatype ToolType = Internal | Actor | ActorMcp

  /** The zod argument schemas the internal tools are built from. */
  datatype ArgsSchema = AddActorArgs | RemoveActorArgs | DiscoverActorsArgs | ActorDetailsArgs | SearchActorsArgs

  /** A tool's input schema: a converted zod schema (internal tools) or an
      Actor's own input schema document after the schema transformations.
      The validator compiled from it is a function of the schema, so the
      model keeps the schema and validates through it. */
  datatype InputSchema = FromZod(args: ArgsSchema) | Document(doc: Json)

  /** A tool of one of the three kinds (the `ToolWrap` union with its
      discriminator). Actor-MCP tools carry no `actorFullName`. */
  datatype Tool =
    | InternalTool(name: string, actorFullName: string, description: string, inputSchema: InputSchema)
    | ActorTool(name: string, actorFullName: string, description: string, inputSchema: InputSchema,
                memoryMbytes: Option<int>)
    | ActorMcpTool(name: string, description: string, inputSchema: InputSchema,
                   actorId: string, serverId: string, serverUrl: string)
  {
    function Type(): ToolType {
      match this
      case InternalTool(_, _, _, _) => Internal
      case ActorTool(_, _, _, _, _) => Actor
      case ActorMcpTool(_, _, _, _, _, _) => ActorMcp
    }

    /** `tool.actorFullName`, `undefined` for an Actor-MCP tool. */
    function FullName(): Option<string> {
      if ActorMcpTool? then None else Some(actorFullName)
    }

    /** `${tool.actorFullName}` in a template literal. */
    function FullNameText(): string {
      FullName().GetOr("undefined")
    }

    /** `tool.memoryMbytes`, `undefined` unless the tool wraps an Actor. */
    function Memory(): Option<int> {
      if ActorTool? then memoryMbytes else None
    }
  }

  /** Names of a list of tools, in order. */
  function NamesOf(ts: seq<Tool>): (ns: seq<string>)
    ensures |ns| == |ts| && forall i :: 0 <= i < |ts| ==> ns[i] == ts[i].name
  {
    seq(|ts|, i requires 0 <= i < |ts| => ts[i].name)
  }

  /** Run statistics of a store Actor (`ActorStats`); `None` is `undefined`. */
  datatype ActorStats = ActorStats(totalRuns: Option<real>, totalUsers30Days: Option<real>, publicActorRunStats30Days: Json)

  /** `PricingInfo` with every field defaulted. */
  datatype PricingInfo = PricingInfo(pricingModel: string, pricePerUnitUsd: real, trialMinutes: real)

  /** `ActorStorePruned`: the summary of a store Actor that search returns.
      `totalStars` is `JNull` when the store record has none. */
  datatype ActorStorePruned = ActorStorePruned(
    id: string, name: string, username: string, actorFullName: string, title: string, description: string,
    stats: ActorStats, currentPricingInfo: PricingInfo, url: string, totalStars: Json)

  /** A content item of a tool-call response (`{ type: 'text', text }`). */
  datatype Content = Text(text: string)
}
