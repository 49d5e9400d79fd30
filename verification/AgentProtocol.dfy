/** The provider-neutral messages a run is made of, and the JSON they are persisted as. */
module AgentProtocol {
  import opened Wrappers

  datatype Json =
    | Null
    | Flag(flag: bool)
    | Number(number: real)
    | Text(text: string)
    | List(items: seq<Json>)
    | Object(members: map<string, Json>)

  type Arguments = map<string, Json>

  datatype Role = User | Assistant | Tool

  datatype ToolCall = ToolCall(
    id: string,
    name: string,
    arguments: Arguments,
    argumentError: Option<string>)

  datatype Message = Message(
    role: Role,
    content: Option<string>,
    toolCalls: seq<ToolCall>,
    toolCallId: Option<string>,
    toolName: Option<string>)

  function UserMessage(content: string): Message {
    Message(User, Some(content), [], None, None)
  }

  function AssistantMessage(content: Option<string>, calls: seq<ToolCall>): Message {
    Message(Assistant, content, calls, None, None)
  }

  function ToolResult(id: string, name: string, content: string): Message {
    Message(Tool, Some(content), [], Some(id), Some(name))
  }

  // -- persistence -------------------------------------------------------

  function OptionalText(s: Option<string>): Json {
    if s.None? then Null else Text(s.value)
  }

  function ReadOptional(members: map<string, Json>, key: string): Option<string> {
    if key in members && members[key].Text? then Some(members[key].text) else None
  }

  function CallToJson(c: ToolCall): Json {
    Object(map["id" := Text(c.id), "name" := Text(c.name), "arguments" := Object(c.arguments),
               "argument_error" := OptionalText(c.argumentError)])
  }

  /** `ToolCall.from_dict`; None where Python would raise. */
  function CallFromJson(j: Json): Option<ToolCall> {
    if !j.Object? || "id" !in j.members || "name" !in j.members then None
    else if !j.members["id"].Text? || !j.members["name"].Text? then None
    else
      var arguments := if "arguments" in j.members && j.members["arguments"].Object?
                       then j.members["arguments"].members else map[];
      Some(ToolCall(j.members["id"].text, j.members["name"].text, arguments,
                    ReadOptional(j.members, "argument_error")))
  }

  function CallsToJson(calls: seq<ToolCall>): (r: seq<Json>)
    ensures |r| == |calls|
  {
    if calls == [] then [] else [CallToJson(calls[0])] + CallsToJson(calls[1..])
  }

  function CallsFromJson(items: seq<Json>): Option<seq<ToolCall>> {
    if items == [] then Some([])
    else
      var head, tail := CallFromJson(items[0]), CallsFromJson(items[1..]);
      if head.None? || tail.None? then None else Some([head.value] + tail.value)
  }

  function RoleText(r: Role): string {
    match r case User => "user" case Assistant => "assistant" case Tool => "tool"
  }

  function RoleOf(s: string): Option<Role> {
    if s == "user" then Some(User) else if s == "assistant" then Some(Assistant)
    else if s == "tool" then Some(Tool) else None
  }

  function MessageToJson(m: Message): Json {
    Object(map["role" := Text(RoleText(m.role)), "content" := OptionalText(m.content),
               "tool_calls" := List(CallsToJson(m.toolCalls)),
               "tool_call_id" := OptionalText(m.toolCallId), "tool_name" := OptionalText(m.toolName)])
  }

  function MessageFromJson(j: Json): Option<Message> {
    if !j.Object? || "role" !in j.members || !j.members["role"].Text? then None
    else
      var role := RoleOf(j.members["role"].text);
      var items := if "tool_calls" in j.members && j.members["tool_calls"].List?
                   then j.members["tool_calls"].items else [];
      var calls := CallsFromJson(items);
      if role.None? || calls.None? then None
      else Some(Message(role.value, ReadOptional(j.members, "content"), calls.value,
                        ReadOptional(j.members, "tool_call_id"), ReadOptional(j.members, "tool_name")))
  }

  /** `serialise_conversation`. */
  function Serialise(conversation: seq<Message>): (r: seq<Json>)
    ensures |r| == |conversation|
  {
    if conversation == [] then []
    else Serialise(conversation[..|conversation| - 1]) + [MessageToJson(conversation[|conversation| - 1])]
  }

  /** `deserialise_conversation`; None where Python would raise. */
  function Deserialise(items: seq<Json>): Option<seq<Message>> {
    if items == [] then Some([])
    else
      var rest, last := Deserialise(items[..|items| - 1]), MessageFromJson(items[|items| - 1]);
      if rest.None? || last.None? then None else Some(rest.value + [last.value])
  }

  lemma {:induction false} CallsRoundTrip(calls: seq<ToolCall>)
    ensures CallsFromJson(CallsToJson(calls)) == Some(calls)
  {
    if calls != [] {
      CallsRoundTrip(calls[1..]);
      assert CallFromJson(CallToJson(calls[0])) == Some(calls[0]);
      assert CallsToJson(calls)[1..] == CallsToJson(calls[1..]);
      assert calls == [calls[0]] + calls[1..];
    }
  }

  lemma MessageRoundTrip(m: Message)
    ensures MessageFromJson(MessageToJson(m)) == Some(m)
  {
    hide CallsToJson, CallsFromJson;
    CallsRoundTrip(m.toolCalls);
  }

  /** What is restored after a park is what was persisted, message for message. */
  lemma {:induction false} ConversationRoundTrip(conversation: seq<Message>)
    ensures Deserialise(Serialise(conversation)) == Some(conversation)
  {
    hide MessageToJson, MessageFromJson;
    if conversation != [] {
      var n := |conversation| - 1;
      ConversationRoundTrip(conversation[..n]);
      MessageRoundTrip(conversation[n]);
      assert Serialise(conversation)[..n] == Serialise(conversation[..n]);
      assert conversation == conversation[..n] + [conversation[n]];
    }
  }

  // -- shape -------------------------------------------------------------

  /** An assistant turn with exactly one call. */
  predicate IsCall(m: Message) {
    m.role == Assistant && |m.toolCalls| == 1
  }

  /** `result` answers the one call of `call`. */
  predicate Answers(call: Message, result: Message) {
    IsCall(call) && result.role == Tool &&
    result.toolCallId == Some(call.toolCalls[0].id) && result.toolName == Some(call.toolCalls[0].name)
  }

  /** One user message, then calls, each followed at once by its own result. */
  predicate Balanced(c: seq<Message>) {
    if |c| < 3 then |c| == 1 && c[0].role == User
    else Balanced(c[..|c| - 2]) && Answers(c[|c| - 2], c[|c| - 1])
  }

  lemma BalancedGrows(c: seq<Message>, call: Message, result: Message)
    requires Balanced(c) && Answers(call, result)
    ensures Balanced(c + [call] + [result])
  {
    var d := c + [call] + [result];
    assert d[..|d| - 2] == c;
  }
}
