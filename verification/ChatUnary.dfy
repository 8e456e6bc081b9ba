/** The converter of a complete Chat Completions response. */
module ChatUnary {
  import opened Common
  import opened Events
  import opened Json
  import opened Assembler
  import ChatStream

  /** A tool call of the response; its type is "function" or something else. */
  datatype UnaryCall = UnaryCall(isFunction: bool, id: string, name: string, arguments: string)

  /** `choices[0]` of the response. */
  datatype Message = Message(content: Option<string>, calls: seq<UnaryCall>, finish: string)

  /** A complete response; what it may leave out is None. */
  datatype Completion = Completion(id: Option<string>, choices: seq<Message>, promptTokens: Option<int>, completionTokens: Option<int>)

  /** Parsed arguments, or the raw text under a key of its own when it is not JSON. */
  function UnaryInput(arguments: string): Json {
    match Loads(arguments)
    case Some(v) => v
    case None => JObj(map["raw_arguments" := JStr(arguments)])
  }

  function ToolContents(calls: seq<UnaryCall>): seq<Content> {
    if calls == [] then []
    else
      (if calls[0].isFunction then [ToolUseContent(calls[0].id, calls[0].name, UnaryInput(calls[0].arguments))] else [])
      + ToolContents(calls[1..])
  }

  function UnaryContent(m: Message): seq<Content> {
    var blocks := (if m.content.Some? then [Text(m.content.value)] else []) + ToolContents(m.calls);
    if blocks == [] then [Text("")] else blocks
  }

  lemma NextToolContent(calls: seq<UnaryCall>, i: nat)
    requires i < |calls|
    ensures ToolContents(calls[i..]) ==
            (if calls[i].isFunction then [ToolUseContent(calls[i].id, calls[i].name, UnaryInput(calls[i].arguments))] else [])
            + ToolContents(calls[i + 1..])
  {
    assert calls[i..][1..] == calls[i + 1..];
  }

  method ConvertContent(m: Message) returns (blocks: seq<Content>)
    ensures blocks == UnaryContent(m)
  {
    blocks := [];
    if m.content.Some? {
      blocks := [Text(m.content.value)];
    }
    ghost var text := blocks;
    var i := 0;
    while i < |m.calls|
      invariant 0 <= i <= |m.calls|
      invariant blocks + ToolContents(m.calls[i..]) == text + ToolContents(m.calls)
    {
      var call := m.calls[i];
      NextToolContent(m.calls, i);
      if call.isFunction {
        var input: Json;
        match Loads(call.arguments) {
          case Some(v) => input := v;
          case None => input := JObj(map["raw_arguments" := JStr(call.arguments)]);
        }
        Associative(blocks, [ToolUseContent(call.id, call.name, input)], ToolContents(m.calls[i + 1..]));
        blocks := blocks + [ToolUseContent(call.id, call.name, input)];
      }
      i := i + 1;
    }
    if blocks == [] {
      blocks := [Text("")];
    }
  }

  /** The first choice as a message; `generated` is the id made up for a response without one. */
  method ConvertUnary(response: Completion, generated: string) returns (reply: Result<Reply, string>)
    ensures reply.Err? <==> response.choices == []
    ensures reply.Err? ==> reply.error == "No choices in OpenAI response"
    ensures reply.Ok? ==>
              var m := response.choices[0];
              && (response.id.Some? ==> reply.value.id == response.id.value) && (response.id.None? ==> reply.value.id == generated)
              && reply.value.content == UnaryContent(m) && reply.value.content != []
              && (reply.value.stop == MaxTokens <==> m.finish == "length")
              && (reply.value.stop == ToolUse <==> m.finish == "tool_calls" || m.finish == "function_call")
              && (reply.value.stop == EndTurn <==> m.finish !in {"length", "tool_calls", "function_call"})
              && reply.value.usage.input == (if response.promptTokens.Some? then response.promptTokens.value else 0)
              && reply.value.usage.output == (if response.completionTokens.Some? then response.completionTokens.value else 0)
  {
    if response.choices == [] {
      return Err("No choices in OpenAI response");
    }
    var m := response.choices[0];
    var blocks := ConvertContent(m);
    reply := Ok(Reply(response.id.GetOr(generated), blocks, ChatStream.StopOf(m.finish),
                      Usage(response.promptTokens.GetOr(0), response.completionTokens.GetOr(0), None)));
  }
}
