/** The part of an Anthropic Messages request that the modelled code reads. */
module Types {
  import opened Wrappers
  import Json

  datatype CacheControl = CacheControl(ttl: Option<string>)

  datatype SystemMessage = SystemMessage(text: string, cacheControl: Option<CacheControl>)

  datatype Tool = Tool(
    name: string,
    description: string,
    inputSchema: map<string, Json.Value>,
    cacheControl: Option<CacheControl>)

  /** `content` is a string or an array of content blocks. */
  datatype Message = Message(role: string, content: Json.Value)

  datatype MessagesRequest = MessagesRequest(
    model: string,
    messages: seq<Message>,
    system: Option<seq<SystemMessage>>,
    tools: Option<seq<Tool>>,
    userId: Option<string>)
}
