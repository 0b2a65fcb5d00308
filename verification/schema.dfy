/**
 * The canonical conversation shared by the model client and the protocol bridge:
 * messages with roles, tool calls with ordered argument mappings, and model responses.
 */
module Schema {
  import opened Wrappers

  datatype Role = System | User | Assistant | Tool

  /** A JSON value as it appears in a tool call's arguments. */
  datatype Value =
    | JNull
    | JBool(b: bool)
    | JInt(i: int)
    | JStr(s: string)
    | JList(items: seq<Value>)
    | JObject(fields: seq<(string, Value)>)

  /** A tool call's argument mapping, in insertion order (a Python dict). */
  type Args = seq<(string, Value)>

  /** A call the model asks for: its correlation id, the tool's name and the arguments. */
  datatype ToolCall = ToolCall(id: string, name: string, arguments: Args)

  /**
   * One conversation entry. `thinking` and `toolCalls` are only set on assistant messages,
   * `toolCallId` and `name` only on tool messages.
   */
  datatype Message = Message(
    role: Role,
    content: string,
    thinking: Option<string>,
    toolCalls: Option<seq<ToolCall>>,
    toolCallId: Option<string>,
    name: Option<string>)

  /** What one model call returns. */
  datatype LLMResponse = LLMResponse(
    content: string,
    thinking: Option<string>,
    toolCalls: Option<seq<ToolCall>>,
    finishReason: string)

  /** Python truthiness of an optional string: present and non-empty. */
  predicate Present(o: Option<string>)
  {
    o.Some? && o.value != ""
  }

  /** Python truthiness of an optional list of calls: present and non-empty. */
  predicate HasCalls(o: Option<seq<ToolCall>>)
  {
    o.Some? && |o.value| > 0
  }

  /** The calls of an optional list, none when absent. */
  function CallList(o: Option<seq<ToolCall>>): seq<ToolCall>
  {
    if o.Some? then o.value else []
  }

  /** Empty-means-absent for text: `x if x else None`. */
  function TextOrNone(s: string): (r: Option<string>)
    ensures Present(r) <==> s != ""
    ensures r.None? <==> s == ""
    ensures r.Some? ==> r.value == s
  {
    if s == "" then None else Some(s)
  }

  /** Empty-means-absent for calls: `x if x else None`. */
  function CallsOrNone(cs: seq<ToolCall>): (r: Option<seq<ToolCall>>)
    ensures HasCalls(r) <==> |cs| > 0
    ensures r.None? <==> |cs| == 0
    ensures CallList(r) == cs
  {
    if |cs| == 0 then None else Some(cs)
  }

  function UserMessage(text: string): Message
  {
    Message(User, text, None, None, None, None)
  }

  /** The assistant message recording a model response. */
  function AssistantMessage(r: LLMResponse): Message
  {
    Message(Assistant, r.content, r.thinking, r.toolCalls, None, None)
  }

  /** The tool message recording the result text of call `id` to tool `name`. */
  function ToolMessage(text: string, id: string, name: string): Message
  {
    Message(Tool, text, None, None, Some(id), Some(name))
  }

  /** Message `m` is an assistant message that issued a call with correlation id `id`. */
  predicate Issues(m: Message, id: string)
  {
    m.role == Assistant && exists k :: 0 <= k < |CallList(m.toolCalls)| && CallList(m.toolCalls)[k].id == id
  }

  /**
   * Every tool message carries a correlation id that an earlier assistant message issued:
   * the pairing invariant of a conversation.
   */
  ghost predicate WellPaired(msgs: seq<Message>)
  {
    forall i :: 0 <= i < |msgs| && msgs[i].role == Tool ==>
      msgs[i].toolCallId.Some? && exists j :: 0 <= j < i && Issues(msgs[j], msgs[i].toolCallId.value)
  }

  /** Empty-means-absent has been applied: no empty thinking text, no empty call list. */
  predicate Normalized(r: LLMResponse)
  {
    (r.thinking.None? || r.thinking.value != "") && (r.toolCalls.None? || |r.toolCalls.value| > 0)
  }
}
