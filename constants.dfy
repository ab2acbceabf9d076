/** The fixed values of src/const.ts. */
module Constants {
  import opened JsValues

  // Actor input
  const ActorReadmeMaxLength: nat := 5000
  const ActorEnumMaxLength: nat := 200
  const ActorMaxDescriptionLength: nat := 500

  // Actor output
  const ActorOutputMaxCharsPerItem: nat := 5000
  const ActorOutputTruncatedMessage: string :=
    "Output was truncated because it will not fit into context." + "There is no reason to call this tool again!"

  const ActorAdditionalInstructions: string :=
    "Never call/execute tool/Actor unless confirmed by the user. " + "Always limit the number of results in the call arguments."

  // Actor run
  const ActorMaxMemoryMbytes: int := 4096

  // MCP server
  const ServerName: string := "apify-mcp-server"
  const ServerVersion: string := "0.1.0"

  // User agent headers
  const UserAgentOrigin: string := "Origin/mcp-server"

  // Helper tool names
  const HelperSearch: string := "search"
  const HelperAddTool: string := "add-tool"
  const HelperRemoveTool: string := "remove-tool"
  const HelperGetToolDetails: string := "get-tool-details"

  // Defaults of the server input
  const DefaultActors: seq<string> :=
    ["apify/instagram-scraper", "apify/rag-web-browser", "lukaskrivka/google-maps-with-contact-details"]
  const DefaultEnableActorAutoLoading: bool := false
  const DefaultMaxMemoryMbytes: int := 4096

  const ApifyUsername: string := "apify"

  /** The `defaults` object as a record. */
  function Defaults(): map<string, Json> {
    map[
      "actors" := StringArray(DefaultActors),
      "enableActorAutoLoading" := JBool(DefaultEnableActorAutoLoading),
      "maxMemoryMbytes" := Num(DefaultMaxMemoryMbytes)
    ]
  }
}
