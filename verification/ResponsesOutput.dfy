/** The response object of the Responses API, as far as the converters read it. */
module ResponsesOutput {
  import opened Events
  import opened Json

  datatype OutputItem =
    | ReasoningItem(fields: map<string, Json>)
    | FunctionCallItem(callId: string, itemId: string, name: string, arguments: string)
    | MessageItem(texts: seq<string>)
    | OtherItem

  datatype Status = CompletedStatus | IncompleteStatus(reason: string) | FailedStatus | OtherStatus

  datatype Response = Response(status: Status, usage: Usage, output: seq<OutputItem>, message: string)

  function StopReasonOf(r: Response, hasToolUse: bool): StopReason {
    if r.status == IncompleteStatus("max_output_tokens") then MaxTokens
    else if hasToolUse then ToolUse
    else EndTurn
  }
}
