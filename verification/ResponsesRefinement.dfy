/**
 * Streaming refines the unary conversion for the Responses API: however text
 * and arguments are cut into events, the message assembled from the emitted
 * events has the text, the stop reason and the usage the unary converter gives
 * the terminal response, and its tool calls exactly when every call's
 * arguments are an object text.
 */
module ResponsesRefinement {
  import opened Common
  import opened Events
  import opened Json
  import opened ResponsesOutput
  import opened ResponsesStream
  import opened Assembler
  import opened ReasoningRoundTrip
  import ChatStream
  import ChatRefinement
  import ChatUnary

  datatype FinalCall = FinalCall(id: string, name: string, arguments: string)

  /** A call being merged: its output index, and whether its arguments came whole. */
  datatype Merged = Merged(key: int, call: FinalCall, done: bool)

  datatype Merging = Merging(text: string, calls: seq<Merged>)

  function Place(calls: seq<Merged>, key: int): (k: nat)
    ensures k <= |calls| && (k < |calls| ==> calls[k].key == key)
  {
    if calls == [] || calls[0].key == key then 0 else 1 + Place(calls[1..], key)
  }

  /** More arguments of call `k`; they extend what came before, and whole arguments do not change. */
  function MergeArguments(m: Merging, k: nat, arguments: string, done: bool): Option<Merging>
    requires k < |m.calls|
  {
    var c := m.calls[k];
    if c.call.arguments <= arguments && (c.done ==> arguments == c.call.arguments)
    then Some(m.(calls := m.calls[k := c.(call := c.call.(arguments := arguments), done := c.done || done)]))
    else None
  }

  /** Merge one event; None when it is untidy or ends the loop. */
  function MergeEvent(m: Merging, e: Event_): Option<Merging> {
    match e
    case OutputText(delta) => Some(m.(text := m.text + delta))
    case FunctionCallAdded(key, callId, itemId, name) =>
      if Place(m.calls, key) < |m.calls| then None
      else Some(m.(calls := m.calls + [Merged(key, FinalCall(OrElse(callId, itemId), name, ""), false)]))
    case ArgumentsDelta(key, delta) =>
      var k := Place(m.calls, key);
      if k == |m.calls| then Some(m) else MergeArguments(m, k, m.calls[k].call.arguments + delta, false)
    case ArgumentsDone(key, arguments) =>
      var k := Place(m.calls, key);
      if k == |m.calls| then Some(m) else MergeArguments(m, k, arguments, true)
    case OtherEvent => Some(m)
    case _ => None
  }

  /** The events up to a terminal response that did not fail, merged, and that response. */
  function MergeAll(m: Merging, inputs: seq<Input>): Option<(Merging, Response)>
    decreases |inputs|
  {
    if inputs == [] then None else
    match inputs[0]
    case Skipped => MergeAll(m, inputs[1..])
    case Got(Terminal(response)) => if response.status == FailedStatus then None else Some((m, response))
    case Got(event) =>
      (match MergeEvent(m, event)
       case None => None
       case Some(m1) => MergeAll(m1, inputs[1..]))
    case _ => None
  }

  const NO_MESSAGE := Merging("", [])

  function CallsIn(output: seq<OutputItem>): seq<FinalCall> {
    if output == [] then []
    else
      (match output[0]
       case FunctionCallItem(callId, itemId, name, arguments) => [FinalCall(if callId != "" then callId else itemId, name, arguments)]
       case _ => [])
      + CallsIn(output[1..])
  }

  function Joined(texts: seq<string>): string {
    if texts == [] then "" else texts[0] + Joined(texts[1..])
  }

  function TextIn(output: seq<OutputItem>): string {
    if output == [] then "" else (if output[0].MessageItem? then Joined(output[0].texts) else "") + TextIn(output[1..])
  }

  function Finals(calls: seq<Merged>): seq<FinalCall> {
    seq(|calls|, k requires 0 <= k < |calls| => calls[k].call)
  }

  /** The events merge to the text and the calls of the terminal response, whose calls have ids. */
  predicate Tidy(inputs: seq<Input>) {
    match MergeAll(NO_MESSAGE, inputs)
    case None => false
    case Some((m, response)) =>
      && m.text == TextIn(response.output)
      && Finals(m.calls) == CallsIn(response.output)
      && forall k :: 0 <= k < |m.calls| ==> m.calls[k].call.id != ""
  }

  function TerminalOf(inputs: seq<Input>): Response
    requires Tidy(inputs)
  {
    MergeAll(NO_MESSAGE, inputs).value.1
  }

  // ----- what converter, assembler and merged response have in common

  /** What the assembler holds of a call's arguments. */
  predicate Delivered(c: Merged, call: Call, partialJson: string) {
    if call.sent
    then (Loads(partialJson).Some? && partialJson <= c.call.arguments) || (c.done && partialJson == OrElse(c.call.arguments, "{}"))
    else partialJson == "" && call.buffer == c.call.arguments && Loads(call.buffer).None? && !c.done
  }

  predicate CallMatches(c: Merged, call: Call, k: nat, blocks: map<nat, Part>) {
    && call.key == c.key && call.block == k + 1 && k + 1 in blocks
    && blocks[k + 1].ToolPart? && blocks[k + 1].id == c.call.id && blocks[k + 1].name == c.call.name
    && Delivered(c, call, blocks[k + 1].partialJson)
  }

  ghost predicate Matches(m: Merging, st: State, a: Assembly) {
    && |st.calls| == |m.calls| == st.counter
    && (forall b: nat :: b in a.blocks <==> b <= st.counter)
    && a.blocks[0] == TextPart(m.text)
    && forall k :: 0 <= k < |m.calls| ==> CallMatches(m.calls[k], st.calls[k], k, a.blocks)
  }

  lemma {:induction false} FindIsPlace(calls: seq<Call>, merged: seq<Merged>, key: int)
    requires |calls| == |merged| && forall k :: 0 <= k < |calls| ==> calls[k].key == merged[k].key
    ensures Find(calls, key) == Place(merged, key)
  {
    if calls != [] && calls[0].key != key {
      FindIsPlace(calls[1..], merged[1..], key);
    }
  }

  lemma CallIsPlaced(m: Merging, st: State, a: Assembly, key: int)
    requires Matches(m, st, a)
    ensures |st.calls| == |m.calls| && Find(st.calls, key) == Place(m.calls, key)
  {
    forall k | 0 <= k < |m.calls| ensures st.calls[k].key == m.calls[k].key {
      assert CallMatches(m.calls[k], st.calls[k], k, a.blocks);
    }
    FindIsPlace(st.calls, m.calls, key);
  }

  lemma TextMatches(m: Merging, st: State, a: Assembly, delta: string)
    requires Matches(m, st, a)
    ensures Matches(m.(text := m.text + delta), st, TakeAll(a, if delta != "" then [TextDelta(0, delta)] else []))
  {
    hide Delivered;
    if delta == "" {
      assert m.text + delta == m.text;
    } else {
      ChatRefinement.TakeOne(a, TextDelta(0, delta));
      var a1 := Take(a, TextDelta(0, delta));
      forall k | 0 <= k < |m.calls| ensures CallMatches(m.calls[k], st.calls[k], k, a1.blocks) {
        assert CallMatches(m.calls[k], st.calls[k], k, a.blocks);
      }
    }
  }

  lemma AddedMatches(m: Merging, st: State, a: Assembly, e: Event_)
    requires Matches(m, st, a) && e.FunctionCallAdded? && MergeEvent(m, e).Some?
    ensures Matches(MergeEvent(m, e).value, Step(st, e).0, TakeAll(a, Step(st, e).1))
  {
    hide Loads;
    CallIsPlaced(m, st, a, e.outputIndex);
    ChatRefinement.EmptyTextIsNotJson();
    var m1, st1, start := MergeEvent(m, e).value, Step(st, e).0, Step(st, e).1[0];
    ChatRefinement.TakeOne(a, start);
    var a1 := Take(a, start);
    forall k | 0 <= k < |m1.calls| ensures CallMatches(m1.calls[k], st1.calls[k], k, a1.blocks) {
      if k < |m.calls| {
        assert CallMatches(m.calls[k], st.calls[k], k, a.blocks);
      }
    }
  }

  /** A change of call `k` alone, with what was sent for it. */
  lemma CallChanged(m: Merging, st: State, a: Assembly, k: nat, c: Merged, call: Call, sends: seq<Event>)
    requires Matches(m, st, a) && k < |m.calls|
    requires sends == [] || (sends == [InputDelta(k + 1, call.buffer)] && !st.calls[k].sent)
    requires call.key == c.key == m.calls[k].key && call.block == st.calls[k].block
    requires c.call.id == m.calls[k].call.id && c.call.name == m.calls[k].call.name
    requires a.blocks[k + 1].ToolPart? && Delivered(c, call, if sends == [] then a.blocks[k + 1].partialJson else call.buffer)
    ensures Matches(m.(calls := m.calls[k := c]), st.(calls := st.calls[k := call]), TakeAll(a, sends))
  {
    hide Loads;
    var a1 := TakeAll(a, sends);
    assert CallMatches(m.calls[k], st.calls[k], k, a.blocks);
    if sends != [] {
      ChatRefinement.TakeOne(a, sends[0]);
      assert "" + call.buffer == call.buffer;
    }
    var m1, st1 := m.(calls := m.calls[k := c]), st.(calls := st.calls[k := call]);
    forall j | 0 <= j < |m.calls| ensures CallMatches(m1.calls[j], st1.calls[j], j, a1.blocks) {
      assert CallMatches(m.calls[j], st.calls[j], j, a.blocks);
    }
  }

  lemma ArgumentsMatch(m: Merging, st: State, a: Assembly, e: Event_)
    requires Matches(m, st, a) && (e.ArgumentsDelta? || e.ArgumentsDone?) && MergeEvent(m, e).Some?
    ensures Matches(MergeEvent(m, e).value, Step(st, e).0, TakeAll(a, Step(st, e).1))
  {
    hide Matches;
    CallIsPlaced(m, st, a, e.outputIndex);
    var k := Place(m.calls, e.outputIndex);
    if k < |m.calls| {
      PlacedArgumentsMatch(m, st, a, e, k);
    }
  }

  lemma PlacedArgumentsMatch(m: Merging, st: State, a: Assembly, e: Event_, k: nat)
    requires Matches(m, st, a) && (e.ArgumentsDelta? || e.ArgumentsDone?) && MergeEvent(m, e).Some?
    requires k == Place(m.calls, e.outputIndex) == Find(st.calls, e.outputIndex) < |m.calls|
    ensures Matches(MergeEvent(m, e).value, Step(st, e).0, TakeAll(a, Step(st, e).1))
  {
    hide Loads;
    assert CallMatches(m.calls[k], st.calls[k], k, a.blocks);
    var (st1, sends, _) := Step(st, e);
    var call := st.calls[k];
    var m1 := MergeEvent(m, e).value;
    assert st.calls[k := call] == st.calls && st.(calls := st.calls) == st;
    CallChanged(m, st, a, k, m1.calls[k], st1.calls[k], sends);
  }

  lemma StepMatches(m: Merging, st: State, a: Assembly, e: Event_)
    requires Matches(m, st, a) && MergeEvent(m, e).Some?
    ensures var (st1, events, verdict) := Step(st, e);
            verdict == GoOn && Matches(MergeEvent(m, e).value, st1, TakeAll(a, events)) && TakeAll(a, events).id == a.id
  {
    hide Matches, Loads;
    match e
    case OutputText(delta) => TextMatches(m, st, a, delta);
    case FunctionCallAdded(_, _, _, _) => AddedMatches(m, st, a, e);
    case ArgumentsDelta(_, _) => ArgumentsMatch(m, st, a, e);
    case ArgumentsDone(_, _) => ArgumentsMatch(m, st, a, e);
    case _ =>
  }

  /** Up to the terminal response everything merged is in the assembler, and its stop reason and usage are in the state. */
  lemma {:induction false} RunMatches(m: Merging, st: State, a: Assembly, inputs: seq<Input>)
    requires Matches(m, st, a) && MergeAll(m, inputs).Some?
    ensures var ran := Run(st, inputs);
            var (m1, response) := MergeAll(m, inputs).value;
            && ran.failure.None? && Matches(m1, ran.state, TakeAll(a, ran.events)) && TakeAll(a, ran.events).id == a.id
            && ran.state.stop == StopReasonOf(response, m1.calls != []) && ran.state.usage == response.usage
    decreases |inputs|
  {
    hide CallMatches;
    match inputs[0]
    case Skipped => RunMatches(m, st, a, inputs[1..]);
    case Got(event) =>
      if !event.Terminal? {
        var (st1, events, _) := Step(st, event);
        StepMatches(m, st, a, event);
        RunMatches(MergeEvent(m, event).value, st1, TakeAll(a, events), inputs[1..]);
        TakeAllConcat(a, events, Run(st1, inputs[1..]).events);
      }
  }

  // ----- the finished message

  function Assembled(id: string, inputs: seq<Input>): Assembly {
    TakeAll(NOTHING, Stream(id, inputs))
  }

  lemma AssembledMatches(id: string, inputs: seq<Input>)
    requires MergeAll(NO_MESSAGE, inputs).Some?
    ensures var (m, response) := MergeAll(NO_MESSAGE, inputs).value;
            && Matches(m, Run(INIT, inputs).state, Assembled(id, inputs)) && Assembled(id, inputs).id == Some(id)
            && MessageDelta(StopReasonOf(response, m.calls != []), response.usage) in Stream(id, inputs)
  {
    var a := Assembly(Some(id), map[0 := TextPart("")]);
    var ran := Run(INIT, inputs);
    ChatRefinement.PreambleAssembled(id);
    RunMatches(NO_MESSAGE, INIT, a, inputs);
    TakeAllConcat(NOTHING, ChatStream.Preamble(id), ran.events);
    TakeAllConcat(NOTHING, ChatStream.Preamble(id) + ran.events, Closing(ran));
    ChatRefinement.ClosingChangesNothing(TakeAll(a, ran.events), Closing(ran));
    assert Closing(ran)[|Closing(ran)| - 2] in Stream(id, inputs);
  }

  /** The input assembled for a call is the unary one exactly when its arguments are an object text. */
  lemma InputsAgree(c: Merged, call: Call, partialJson: string)
    requires Delivered(c, call, partialJson)
    ensures InputOf(partialJson) == CallInput(c.call.arguments) <==> IsObjectText(OrElse(c.call.arguments, "{}"))
  {
    var arguments := c.call.arguments;
    ChatRefinement.EmptyTextIsNotJson();
    EmptyObject();
    if arguments == "" {
      assert partialJson == "" || partialJson == "{}";
    } else if !(call.sent && partialJson == arguments) {
      ChatRefinement.InputsAgree(ChatStream.Call(0, "", "", arguments, call.sent, None), partialJson);
    } else {
      WholeAgrees(arguments);
    }
  }

  lemma WholeAgrees(arguments: string)
    ensures InputOf(arguments) == ChatUnary.UnaryInput(arguments) <==> IsObjectText(arguments)
  {
    if Loads(arguments).None? {
      assert "raw_arguments" in ChatUnary.UnaryInput(arguments).fields;
    }
  }

  lemma EmptyObject()
    ensures Loads("{}") == Some(JObj(map[]))
  {
  }

  function ToolUses(content: seq<Content>): seq<Content> {
    if content == [] then [] else (if content[0].ToolUseContent? then [content[0]] else []) + ToolUses(content[1..])
  }

  function Uses(calls: seq<FinalCall>): seq<Content> {
    seq(|calls|, k requires 0 <= k < |calls| => ToolUseContent(calls[k].id, calls[k].name, CallInput(calls[k].arguments)))
  }

  lemma {:induction false} AllTools(content: seq<Content>)
    requires forall k :: 0 <= k < |content| ==> content[k].ToolUseContent?
    ensures ToolUses(content) == content && JoinTexts(content) == ""
  {
    if content != [] {
      AllTools(content[1..]);
    }
  }

  lemma {:induction false} TextsJoined(texts: seq<string>, rest: seq<Content>)
    ensures ToolUses(TextContents(texts) + rest) == ToolUses(rest)
    ensures JoinTexts(TextContents(texts) + rest) == Joined(texts) + JoinTexts(rest)
  {
    if texts == [] {
      assert TextContents(texts) + rest == rest;
    } else {
      assert (TextContents(texts) + rest)[1..] == TextContents(texts[1..]) + rest;
      TextsJoined(texts[1..], rest);
    }
  }

  lemma UsesConcat(a: seq<FinalCall>, b: seq<FinalCall>)
    ensures Uses(a + b) == Uses(a) + Uses(b)
  {
  }

  lemma NoParts()
    ensures JoinTexts([]) == "" && ToolUses([]) == [] && Uses([]) == []
  {
  }

  lemma CallFirst(call: FinalCall, rest: seq<Content>)
    ensures var use := ToolUseContent(call.id, call.name, CallInput(call.arguments));
            Uses([call]) == [use] && ToolUses([use] + rest) == [use] + ToolUses(rest) && JoinTexts([use] + rest) == JoinTexts(rest)
  {
    hide CallInput;
    var use := ToolUseContent(call.id, call.name, CallInput(call.arguments));
    assert ([use] + rest)[1..] == rest;
  }

  /** The unary content: the texts of the output, and its calls. */
  lemma {:induction false} UnaryParts(output: seq<OutputItem>, generated: string)
    requires forall c :: c in CallsIn(output) ==> c.id != ""
    ensures JoinTexts(Contents(output, generated)) == TextIn(output)
    ensures ToolUses(Contents(output, generated)) == Uses(CallsIn(output))
    ensures CallIds(output) != [] <==> CallsIn(output) != []
  {
    hide CallInput, Joined, ToolUses, JoinTexts, Uses;
    NoParts();
    if output != [] {
      var head, rest := ItemContents(output[0], generated), Contents(output[1..], generated);
      UnaryParts(output[1..], generated);
      NoneAdded(CallsIn(output[1..]));
      NoneAdded(TextIn(output[1..]));
      match output[0]
      case MessageItem(texts) => TextsJoined(texts, rest);
      case FunctionCallItem(callId, itemId, name, arguments) =>
        var call := FinalCall(OrElse(callId, itemId), name, arguments);
        assert CallsIn(output)[0] == call && call.id != "";
        CallFirst(call, rest);
        UsesConcat([call], CallsIn(output[1..]));
      case _ => NoneAdded(rest);
    }
  }

  lemma UnaryMessageParts(output: seq<OutputItem>, generated: string)
    requires forall c :: c in CallsIn(output) ==> c.id != ""
    ensures JoinTexts(MessageContent(output, generated)) == TextIn(output)
    ensures ToolUses(MessageContent(output, generated)) == Uses(CallsIn(output))
    ensures CallIds(output) != [] <==> CallsIn(output) != []
  {
    UnaryParts(output, generated);
    assert [Text("")][1..] == [];
  }

  lemma AssembledParts(m: Merging, st: State, a: Assembly)
    requires Matches(m, st, a)
    ensures var content := ContentOf(a.blocks);
            && JoinTexts(content) == m.text
            && (ToolUses(content) == Uses(Finals(m.calls)) <==>
                  forall k :: 0 <= k < |m.calls| ==> IsObjectText(OrElse(m.calls[k].call.arguments, "{}")))
  {
    hide Loads, IsObjectText, Delivered;
    var content := ContentOf(a.blocks);
    ContentOfRange(a.blocks, 0, |m.calls| + 1);
    var tools, uses := content[1..], Uses(Finals(m.calls));
    forall k | 0 <= k < |m.calls|
      ensures tools[k].ToolUseContent? && (tools[k] == uses[k] <==> IsObjectText(OrElse(m.calls[k].call.arguments, "{}")))
    {
      assert CallMatches(m.calls[k], st.calls[k], k, a.blocks);
      assert tools[k] == Close(a.blocks[0 + (k + 1)]);
      InputsAgree(m.calls[k], st.calls[k], a.blocks[k + 1].partialJson);
    }
    AllTools(tools);
    assert ToolUses(content) == [] + tools;
    assert m.text + "" == m.text;
  }

  /**
   * Streaming refines the unary conversion. For every tidy way of cutting a response into events
   * the joined text, the stop reason and the usage are the unary ones, and the tool calls are
   * exactly when the arguments of each, `{}` for none, are an object text.
   */
  lemma StreamRefinesUnary(id: string, inputs: seq<Input>, generated: string)
    requires Tidy(inputs)
    ensures var response := TerminalOf(inputs);
            var streamed, unary := ContentOf(Assembled(id, inputs).blocks), MessageContent(response.output, generated);
            var stop := if response.status == IncompleteStatus("max_output_tokens") then MaxTokens
                        else if CallIds(response.output) != [] then ToolUse else EndTurn;
            && Assembled(id, inputs).id == Some(id)
            && MessageDelta(stop, response.usage) in Stream(id, inputs)
            && JoinTexts(streamed) == JoinTexts(unary)
            && (ToolUses(streamed) == ToolUses(unary) <==>
                  forall c :: c in CallsIn(response.output) ==> IsObjectText(OrElse(c.arguments, "{}")))
  {
    hide Matches, Stream, IsObjectText, MessageContent, ContentOf, JoinTexts, ToolUses, Uses;
    var (m, response) := MergeAll(NO_MESSAGE, inputs).value;
    AssembledMatches(id, inputs);
    AssembledParts(m, Run(INIT, inputs).state, Assembled(id, inputs));
    FinalsAre(m.calls);
    UnaryMessageParts(response.output, generated);
  }

  lemma FinalsAre(calls: seq<Merged>)
    ensures forall c :: c in Finals(calls) <==> exists k :: 0 <= k < |calls| && calls[k].call == c
    ensures Finals(calls) != [] <==> calls != []
  {
    forall k | 0 <= k < |calls| ensures calls[k].call in Finals(calls) {
      assert Finals(calls)[k] == calls[k].call;
    }
  }
}
