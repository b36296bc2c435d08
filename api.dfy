/**
 * The host API's value types that the bridge reads and writes: chat
 * messages, tool definitions and tool calls.
 */
module Api {
  import opened Wrappers

  /**
   * A tool call. The argument object is JSON that this layer only forwards,
   * so it is kept as its encoded text.
   */
  datatype ToolCall = ToolCall(name: string, arguments: string)

  datatype Message = Message(role: string, content: string, toolCalls: seq<ToolCall>)

  /** A JSON value in a tool's `Items` object, as far as the URL lookup cares. */
  datatype ItemValue = StringValue(s: string) | OtherValue

  /**
   * The dynamic `Items` field of a tool definition: a plain string, a decoded
   * JSON object, or any other Go value, given here by the object it turns into
   * after a JSON encode/decode round trip (None when that round trip fails).
   */
  datatype Items =
    | TextItems(text: string)
    | ObjectItems(fields: map<string, ItemValue>)
    | OtherItems(asObject: Option<map<string, ItemValue>>)

  /**
   * A tool definition. `parameters` is the JSON encoding of the parameter
   * schema, None when encoding fails.
   */
  datatype Tool = Tool(name: string, description: string, parameters: Option<string>, items: Items)
}
