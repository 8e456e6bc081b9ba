/**
 * Streaming refines the unary conversion: however text and tool arguments are
 * cut into fragments, the message assembled from the emitted events is the
 * one the unary converter makes of the merged response, up to an empty
 * leading text block, exactly when every call's arguments are an object text.
 */
module ChatRefinement {
  import opened Common
  import opened Events
  import opened Json
  import opened ChatStream
  import opened Assembler
  import opened ChatUnary

  /** A call of the merged response, and the index its fragments carry. */
  datatype Merged = Merged(key: int, call: UnaryCall)

  /** The response the chunks add up to, while they are being merged; calls stand in the order they begin. */
  datatype Merging = Merging(text: Option<string>, calls: seq<Merged>, finish: string)

  predicate Complete(c: UnaryCall) {
    c.id != "" && c.name != ""
  }

  /** A fragment that does not change an id or a name. */
  predicate Repeats(c: UnaryCall, d: ToolDelta)
    requires d.ToolDelta?
  {
    (d.id == "" || d.id == c.id) && (d.name == "" || d.name == c.name)
  }

  /** The first call begun with an index. */
  function Place(calls: seq<Merged>, key: int): (k: nat)
    ensures k <= |calls|
  {
    if calls == [] || calls[0].key == key then 0 else 1 + Place(calls[1..], key)
  }

  function Extended(c: UnaryCall, d: ToolDelta): UnaryCall
    requires d.ToolDelta?
  {
    c.(id := if d.id != "" then d.id else c.id,
       name := if d.name != "" then d.name else c.name,
       arguments := c.arguments + d.arguments.GetOr(""))
  }

  /**
   * Add a fragment to the merged calls. It is tidy when a call begins only once the one before
   * has its id and name, when these do not change after that, and when arguments come no
   * earlier than the call's own id and name; an untidy fragment gives None.
   */
  function MergeTool(calls: seq<Merged>, d: ToolDelta): Option<seq<Merged>>
    requires d.ToolDelta?
  {
    var k := Place(calls, d.index);
    var begun := if k < |calls| then calls[k].call else UnaryCall(true, "", "", "");
    var merged := Extended(begun, d);
    if d.arguments.GetOr("") != "" && !Complete(merged) then None
    else if k < |calls| then
      if Complete(begun) && !Repeats(begun, d) then None else Some(calls[k := Merged(d.index, merged)])
    else if calls == [] || Complete(calls[|calls| - 1].call) then Some(calls + [Merged(d.index, merged)])
    else None
  }

  function MergeTools(calls: seq<Merged>, tools: seq<ToolDelta>): Option<seq<Merged>>
    decreases |tools|
  {
    if tools == [] then Some(calls)
    else if tools[0].BrokenTool? then None
    else
      match MergeTool(calls, tools[0])
      case None => None
      case Some(calls1) => MergeTools(calls1, tools[1..])
  }

  function MergeText(text: Option<string>, delta: Delta): Option<string> {
    if delta.content.None? then text else Some(text.GetOr("") + delta.content.value)
  }

  function MergeChoice(m: Merging, choice: Option<Choice>): Option<Merging> {
    if choice.None? then Some(m)
    else if choice.value.delta.None? then None
    else
      match MergeTools(m.calls, choice.value.delta.value.tools)
      case None => None
      case Some(calls) =>
        Some(Merging(MergeText(m.text, choice.value.delta.value), calls,
                     if choice.value.finish == "" then m.finish else choice.value.finish))
  }

  /** The lines the converter reads, merged; None when they are untidy or end with an error. */
  function MergeAll(m: Merging, inputs: seq<Input>): Option<Merging>
    decreases |inputs|
  {
    if inputs == [] then Some(m) else
    match inputs[0]
    case Skipped => MergeAll(m, inputs[1..])
    case Done => Some(m)
    case Disconnected => Some(m)
    case Raises(error) => if error.Transport? then Some(m) else None
    case Chunk(_, choice) =>
      match MergeChoice(m, choice)
      case None => None
      case Some(m1) => MergeAll(m1, inputs[1..])
  }

  const NO_MESSAGE := Merging(None, [], "")

  function Merge(inputs: seq<Input>): Option<Merging> {
    MergeAll(NO_MESSAGE, inputs)
  }

  /** The fragments merge, and every call got its id and name. */
  predicate Tidy(inputs: seq<Input>) {
    && Merge(inputs).Some?
    && forall k :: 0 <= k < |Merge(inputs).value.calls| ==> Complete(Merge(inputs).value.calls[k].call)
  }

  // ----- what the converter, the assembler and the merged response have in common

  /** What the assembler holds of a call's arguments. */
  predicate Delivered(call: Call, partialJson: string) {
    if call.sent
    then Loads(partialJson).Some? && partialJson <= call.buffer
    else partialJson == "" && Loads(call.buffer).None?
  }

  predicate CallMatches(m: Merged, call: Call, k: nat, blocks: map<nat, Part>) {
    var c := m.call;
    && call.key == m.key && call.id == c.id && call.name == c.name && call.buffer == c.arguments
    && c.isFunction
    && if Complete(c) then
         && call.block == Some(k + 1) && k + 1 in blocks
         && blocks[k + 1].ToolPart? && blocks[k + 1].id == c.id && blocks[k + 1].name == c.name
         && Delivered(call, blocks[k + 1].partialJson)
       else
         call.block.None? && c.arguments == "" && !call.sent
  }

  ghost predicate BlocksNumbered(blocks: map<nat, Part>, counter: nat) {
    forall b: nat :: b in blocks <==> b <= counter
  }

  ghost predicate CallsMatch(calls: seq<Merged>, st: State, blocks: map<nat, Part>) {
    && |st.calls| == |calls|
    && BlocksNumbered(blocks, st.counter)
    && st.counter == (if calls == [] || Complete(calls[|calls| - 1].call) then |calls| else |calls| - 1)
    && (forall k :: 0 <= k < |calls| - 1 ==> Complete(calls[k].call))
    && (forall k :: 0 <= k < |calls| ==> CallMatches(calls[k], st.calls[k], k, blocks))
  }

  ghost predicate Matches(m: Merging, st: State, a: Assembly) {
    && CallsMatch(m.calls, st, a.blocks)
    && 0 in a.blocks && a.blocks[0] == TextPart(m.text.GetOr(""))
    && st.stop == StopOf(m.finish)
  }

  lemma {:induction false} FindIsPlace(calls: seq<Call>, merged: seq<Merged>, key: int)
    requires |calls| == |merged| && forall k :: 0 <= k < |calls| ==> calls[k].key == merged[k].key
    ensures Find(calls, key) == Place(merged, key)
    ensures Place(merged, key) < |merged| ==> merged[Place(merged, key)].key == key
  {
    if calls != [] && calls[0].key != key {
      FindIsPlace(calls[1..], merged[1..], key);
    }
  }

  lemma EmptyTextIsNotJson()
    ensures Loads("").None?
  {
  }

  /** The argument part of a fragment, seen by the assembler. */
  lemma ArgumentsDelivered(call: Call, arguments: Option<string>, a: Assembly)
    requires call.block.Some? && call.block.value in a.blocks && a.blocks[call.block.value].ToolPart?
    requires Delivered(call, a.blocks[call.block.value].partialJson)
    ensures var (taken, sends) := TakeArguments(call, arguments);
            var b := call.block.value;
            var a' := TakeAll(a, sends);
            && taken == call.(buffer := call.buffer + arguments.GetOr(""), sent := taken.sent)
            && b in a'.blocks && a'.blocks[b].ToolPart?
            && a' == a.(blocks := a.blocks[b := a.blocks[b].(partialJson := a'.blocks[b].partialJson)])
            && Delivered(taken, a'.blocks[b].partialJson)
  {
    var (taken, sends) := TakeArguments(call, arguments);
    var b := call.block.value;
    assert call.buffer + "" == call.buffer;
    if sends == [] {
      assert a.blocks[b := a.blocks[b]] == a.blocks;
    } else {
      assert TakeAll(a, sends) == TakeAll(Take(a, sends[0]), sends[1..]) == Take(a, sends[0]);
      assert "" + taken.buffer == taken.buffer;
    }
  }

  lemma CallIsPlaced(calls: seq<Merged>, st: State, blocks: map<nat, Part>, key: int)
    requires CallsMatch(calls, st, blocks)
    ensures Find(st.calls, key) == Place(calls, key)
    ensures var k := Place(calls, key); k < |calls| ==> calls[k].key == key && CallMatches(calls[k], st.calls[k], k, blocks)
  {
    forall k | 0 <= k < |calls| ensures st.calls[k].key == calls[k].key {
      assert CallMatches(calls[k], st.calls[k], k, blocks);
    }
    FindIsPlace(st.calls, calls, key);
  }

  /** After a fragment's id and name, the converter's record is the merged call without the new arguments. */
  lemma NamedMatches(calls: seq<Merged>, st: State, blocks: map<nat, Part>, d: ToolDelta)
    requires d.ToolDelta? && MergeTool(calls, d).Some? && CallsMatch(calls, st, blocks)
    ensures var k := Place(calls, d.index);
            var named := Named(st.calls, d);
            var c := MergeTool(calls, d).value[k].call;
            && Find(st.calls, d.index) == k && |st.calls| == |calls|
            && named.key == d.index == MergeTool(calls, d).value[k].key && named.id == c.id && named.name == c.name && c.isFunction
            && named.buffer + d.arguments.GetOr("") == c.arguments
            && named.block == (if k < |calls| then st.calls[k].block else None)
            && named.sent == (if k < |calls| then st.calls[k].sent else false)
            && (Starts(named) <==> Complete(c) && (k == |calls| || !Complete(calls[k].call)))
            && (named.block.None? ==> named.buffer == "" && !named.sent)
            && (named.block.Some? ==> Complete(c) && CallMatches(calls[k], st.calls[k], k, blocks))
            && (named.block.Some? ==> c == calls[k].call.(arguments := c.arguments))
            && (Starts(named) ==> st.counter == k)
  {
    CallIsPlaced(calls, st, blocks, d.index);
  }

  lemma StartingStepMatches(calls: seq<Merged>, st: State, a: Assembly, d: ToolDelta, k: nat)
    requires d.ToolDelta? && k == Place(calls, d.index) == Find(st.calls, d.index)
    requires MergeTool(calls, d).Some? && CallsMatch(calls, st, a.blocks)
    requires Starts(Named(st.calls, d))
    ensures var (st1, events) := ToolStep(st, d);
            var a1 := TakeAll(a, events);
            && BlocksNumbered(a1.blocks, st1.counter) && st1.counter == st.counter + 1
            && CallMatches(MergeTool(calls, d).value[k], st1.calls[k], k, a1.blocks)
            && a1.id == a.id && forall b: nat :: b in a.blocks && b != k + 1 ==> b in a1.blocks && a1.blocks[b] == a.blocks[b]
  {
    hide Loads, Named, MergeTool, TakeAll, TakeArguments, CallsMatch;
    NamedMatches(calls, st, a.blocks, d);
    AreNumbered(calls, st, a.blocks);
    StartDelivered(Named(st.calls, d), st.counter + 1, d.arguments, a);
  }

  lemma AreNumbered(calls: seq<Merged>, st: State, blocks: map<nat, Part>)
    requires CallsMatch(calls, st, blocks)
    ensures BlocksNumbered(blocks, st.counter)
  {
  }

  /** A call's start and its first arguments, seen by the assembler. */
  lemma StartDelivered(named: Call, b: nat, arguments: Option<string>, a: Assembly)
    requires named.buffer == "" && !named.sent
    ensures var (taken, sends) := TakeArguments(named.(block := Some(b)), arguments);
            var a1 := TakeAll(a, [BlockStart(b, ToolBlock(named.id, named.name))] + sends);
            && taken == named.(block := Some(b), buffer := arguments.GetOr(""), sent := taken.sent)
            && b in a1.blocks && a1.blocks[b].ToolPart? && Delivered(taken, a1.blocks[b].partialJson)
            && a1 == a.(blocks := a.blocks[b := ToolPart(named.id, named.name, a1.blocks[b].partialJson)])
  {
    hide Loads, TakeArguments;
    EmptyTextIsNotJson();
    var call, start := named.(block := Some(b)), BlockStart(b, ToolBlock(named.id, named.name));
    var sends := TakeArguments(call, arguments).1;
    ArgumentsDelivered(call, arguments, Take(a, start));
    assert ([start] + sends)[1..] == sends;
    assert "" + arguments.GetOr("") == arguments.GetOr("");
  }

  lemma RunningStepMatches(calls: seq<Merged>, st: State, a: Assembly, d: ToolDelta, k: nat)
    requires d.ToolDelta? && k == Place(calls, d.index) == Find(st.calls, d.index)
    requires MergeTool(calls, d).Some? && CallsMatch(calls, st, a.blocks)
    requires !Starts(Named(st.calls, d))
    ensures var (st1, events) := ToolStep(st, d);
            var a1 := TakeAll(a, events);
            && BlocksNumbered(a1.blocks, st1.counter) && st1.counter == st.counter
            && CallMatches(MergeTool(calls, d).value[k], st1.calls[k], k, a1.blocks)
            && a1.id == a.id && forall b: nat :: b in a.blocks && b != k + 1 ==> b in a1.blocks && a1.blocks[b] == a.blocks[b]
  {
    NamedMatches(calls, st, a.blocks, d);
    var named := Named(st.calls, d);
    if named.block.Some? {
      ArgumentsDelivered(named, d.arguments, a);
    } else {
      assert named.buffer + "" == named.buffer;
      assert ToolStep(st, d).1 == [];
    }
  }

  /** One tidy fragment keeps converter, assembler and merged calls in step. */
  lemma ToolStepMatches(calls: seq<Merged>, st: State, a: Assembly, d: ToolDelta)
    requires d.ToolDelta? && MergeTool(calls, d).Some? && CallsMatch(calls, st, a.blocks)
    ensures var (st1, events) := ToolStep(st, d);
            var a1 := TakeAll(a, events);
            && CallsMatch(MergeTool(calls, d).value, st1, a1.blocks)
            && st1.stop == st.stop && a1.id == a.id
            && (0 in a.blocks ==> 0 in a1.blocks && a1.blocks[0] == a.blocks[0])
  {
    hide CallsMatch, CallMatches, BlocksNumbered, TakeAll, Loads;
    var (st1, events) := ToolStep(st, d);
    var k := Place(calls, d.index);
    NamedMatches(calls, st, a.blocks, d);
    if Starts(Named(st.calls, d)) {
      StartingStepMatches(calls, st, a, d, k);
    } else {
      RunningStepMatches(calls, st, a, d, k);
    }
    StepKeepsOthers(calls, MergeTool(calls, d).value, st, st1, a, TakeAll(a, events), k);
  }

  /** A step that touches call `k` alone, and matches there, matches everywhere. */
  lemma StepKeepsOthers(calls: seq<Merged>, calls1: seq<Merged>, st: State, st1: State, a: Assembly, a1: Assembly, k: nat)
    requires CallsMatch(calls, st, a.blocks)
    requires k <= |calls| && |calls1| == |st1.calls| == (if k == |calls| then |calls| + 1 else |calls|)
    requires forall j :: 0 <= j < |calls| && j != k ==> calls1[j] == calls[j] && st1.calls[j] == st.calls[j]
    requires forall b: nat :: b in a.blocks && b != k + 1 ==> b in a1.blocks && a1.blocks[b] == a.blocks[b]
    requires BlocksNumbered(a1.blocks, st1.counter)
    requires k == |calls| && calls != [] ==> Complete(calls[|calls| - 1].call)
    requires k < |calls| && Complete(calls[k].call) ==> Complete(calls1[k].call)
    requires st1.counter == if Complete(calls1[k].call) && (k == |calls| || !Complete(calls[k].call)) then st.counter + 1 else st.counter
    requires CallMatches(calls1[k], st1.calls[k], k, a1.blocks)
    ensures CallsMatch(calls1, st1, a1.blocks)
  {
    hide CallMatches;
    forall j | 0 <= j < |calls1| ensures CallMatches(calls1[j], st1.calls[j], j, a1.blocks) {
      if j != k { OtherKept(calls[j], st.calls[j], j, a.blocks, a1.blocks); }
    }
  }

  lemma OtherKept(m: Merged, call: Call, j: nat, blocks: map<nat, Part>, blocks1: map<nat, Part>)
    requires CallMatches(m, call, j, blocks)
    requires j + 1 in blocks ==> j + 1 in blocks1 && blocks1[j + 1] == blocks[j + 1]
    ensures CallMatches(m, call, j, blocks1)
  {
    hide Loads;
  }

  lemma {:induction false} ToolStepsMatch(calls: seq<Merged>, st: State, a: Assembly, tools: seq<ToolDelta>)
    requires MergeTools(calls, tools).Some? && CallsMatch(calls, st, a.blocks)
    ensures var s := ToolSteps(st, tools);
            var a1 := TakeAll(a, s.events);
            && !s.broke
            && CallsMatch(MergeTools(calls, tools).value, s.state, a1.blocks)
            && s.state.stop == st.stop && a1.id == a.id
            && (0 in a.blocks ==> 0 in a1.blocks && a1.blocks[0] == a.blocks[0])
    decreases |tools|
  {
    if tools != [] {
      var (st1, events) := ToolStep(st, tools[0]);
      var a1 := TakeAll(a, events);
      ToolStepMatches(calls, st, a, tools[0]);
      ToolStepsMatch(MergeTool(calls, tools[0]).value, st1, a1, tools[1..]);
      TakeAllConcat(a, events, ToolSteps(st1, tools[1..]).events);
    }
  }

  lemma TextKeepsCalls(calls: seq<Merged>, st: State, st1: State, blocks: map<nat, Part>, blocks1: map<nat, Part>)
    requires CallsMatch(calls, st, blocks) && st1.calls == st.calls && st1.counter == st.counter
    requires blocks1.Keys == blocks.Keys && forall b: nat :: b in blocks && b != 0 ==> blocks1[b] == blocks[b]
    ensures CallsMatch(calls, st1, blocks1)
  {
    forall b: nat ensures b in blocks1 <==> b <= st.counter {
      assert b in blocks1.Keys <==> b in blocks.Keys;
    }
    forall k | 0 <= k < |calls| ensures CallMatches(calls[k], st1.calls[k], k, blocks1) {
      assert CallMatches(calls[k], st.calls[k], k, blocks);
    }
  }

  lemma ChunkMatches(m: Merging, st: State, a: Assembly, usage: Option<Usage>, choice: Option<Choice>)
    requires MergeChoice(m, choice).Some? && Matches(m, st, a)
    ensures var s := ChunkStep(st, usage, choice);
            !s.broke && Matches(MergeChoice(m, choice).value, s.state, TakeAll(a, s.events)) && TakeAll(a, s.events).id == a.id
  {
    hide CallsMatch, MergeTools, ToolSteps;
    if choice.Some? {
      var delta := choice.value.delta.value;
      var text := TextEvents(choice.value.delta);
      var a1 := TakeAll(a, text);
      if text != [] {
        assert TakeAll(a, text) == TakeAll(Take(a, text[0]), text[1..]) == Take(a, text[0]);
      }
      var st1 := st.(usage := usage.GetOr(st.usage));
      TextKeepsCalls(m.calls, st, st1, a.blocks, a1.blocks);
      ToolStepsMatch(m.calls, st1, a1, delta.tools);
      TakeAllConcat(a, text, ToolSteps(st1, delta.tools).events);
      var blocks := TakeAll(a, ChunkStep(st, usage, choice).events).blocks;
      TextKeepsCalls(MergeTools(m.calls, delta.tools).value, ToolSteps(st1, delta.tools).state, ChunkStep(st, usage, choice).state, blocks, blocks);
    } else {
      TextKeepsCalls(m.calls, st, ChunkStep(st, usage, choice).state, a.blocks, a.blocks);
    }
  }

  lemma {:induction false} RunMatches(m: Merging, st: State, a: Assembly, inputs: seq<Input>)
    requires MergeAll(m, inputs).Some? && Matches(m, st, a)
    ensures var ran := Run(st, inputs);
            && ran.failure.None?
            && Matches(MergeAll(m, inputs).value, ran.state, TakeAll(a, ran.events))
            && TakeAll(a, ran.events).id == a.id
    decreases |inputs|
  {
    if inputs != [] {
      match inputs[0]
      case Skipped => RunMatches(m, st, a, inputs[1..]);
      case Chunk(usage, choice) =>
        var s := ChunkStep(st, usage, choice);
        ChunkMatches(m, st, a, usage, choice);
        RunMatches(MergeChoice(m, choice).value, s.state, TakeAll(a, s.events), inputs[1..]);
        TakeAllConcat(a, s.events, Run(s.state, inputs[1..]).events);
      case _ =>
    }
  }

  // ----- the finished message

  /**
   * The input assembled for a call is the one the unary converter gives exactly when
   * the arguments are an object text.
   */
  lemma InputsAgree(call: Call, partialJson: string)
    requires Delivered(call, partialJson)
    ensures InputOf(partialJson) == UnaryInput(call.buffer) <==> IsObjectText(call.buffer)
  {
    var arguments := call.buffer;
    EmptyTextIsNotJson();
    if IsObjectText(arguments) {
      assert call.sent;
      assert partialJson == arguments[..|partialJson|];
      ObjectTextPrefix(arguments, |partialJson|);
    } else if Loads(arguments).None? && InputOf(partialJson) == UnaryInput(arguments) {
      assert "raw_arguments" in InputOf(partialJson).fields;
      assert IsObjectText(partialJson);
      FieldStringShorter(partialJson, "raw_arguments");
      assert false;
    }
  }

  function DropEmptyLead(content: seq<Content>): seq<Content> {
    if content != [] && content[0] == Text("") then content[1..] else content
  }

  /** The message assembled from everything the streaming converter emitted. */
  function Assembled(id: string, inputs: seq<Input>): Assembly {
    TakeAll(NOTHING, Stream(id, inputs))
  }

  lemma {:induction false} ClosingChangesNothing(a: Assembly, events: seq<Event>)
    requires forall k :: 0 <= k < |events| ==> events[k].BlockStop? || events[k].MessageDelta? || events[k].MessageStop?
    ensures TakeAll(a, events) == a
    decreases |events|
  {
    if events != [] {
      ClosingChangesNothing(a, events[1..]);
    }
  }

  lemma PreambleAssembled(id: string)
    ensures TakeAll(NOTHING, Preamble(id)) == Assembly(Some(id), map[0 := TextPart("")])
  {
    var pre := Preamble(id);
    assert pre[1..] == [BlockStart(0, TextBlock), Ping] && pre[1..][1..] == [Ping] && pre[1..][1..][1..] == [];
    var a1 := Take(NOTHING, pre[0]);
    var a2 := Take(a1, BlockStart(0, TextBlock));
    assert TakeAll(a2, [Ping]) == TakeAll(Take(a2, Ping), []);
    assert TakeAll(a1, pre[1..]) == TakeAll(a2, [Ping]);
  }

  lemma AssembledMatches(id: string, inputs: seq<Input>)
    requires Merge(inputs).Some?
    ensures Matches(Merge(inputs).value, Run(INIT, inputs).state, Assembled(id, inputs))
    ensures Run(INIT, inputs).failure.None?
    ensures Assembled(id, inputs).id == Some(id)
  {
    var a := Assembly(Some(id), map[0 := TextPart("")]);
    var ran := Run(INIT, inputs);
    PreambleAssembled(id);
    RunMatches(NO_MESSAGE, INIT, a, inputs);
    TakeAllConcat(NOTHING, Preamble(id), ran.events);
    TakeAllConcat(NOTHING, Preamble(id) + ran.events, Closing(ran));
    ClosingChangesNothing(TakeAll(a, ran.events), Closing(ran));
  }

  lemma {:induction false} ToolContentsAt(calls: seq<UnaryCall>)
    requires forall k :: 0 <= k < |calls| ==> calls[k].isFunction
    ensures |ToolContents(calls)| == |calls|
    ensures forall k :: 0 <= k < |calls| ==>
              ToolContents(calls)[k] == ToolUseContent(calls[k].id, calls[k].name, UnaryInput(calls[k].arguments))
  {
    if calls != [] {
      ToolContentsAt(calls[1..]);
    }
  }

  /** One finished tool block against the merged call it came from. */
  predicate BlockAgrees(content: Content, c: UnaryCall) {
    && content.ToolUseContent? && content.id == c.id && content.name == c.name
    && (content.input == UnaryInput(c.arguments) <==> IsObjectText(c.arguments))
  }

  lemma ClosedBlockAgrees(m: Merged, call: Call, k: nat, blocks: map<nat, Part>)
    requires CallMatches(m, call, k, blocks) && Complete(m.call)
    ensures BlockAgrees(Close(blocks[k + 1]), m.call)
  {
    InputsAgree(call, blocks[k + 1].partialJson);
  }

  /** The assembled content: the text block, then one block per call with its ids and its input. */
  lemma AssembledContent(id: string, inputs: seq<Input>)
    requires Tidy(inputs)
    ensures var m := Merge(inputs).value;
            var content := ContentOf(Assembled(id, inputs).blocks);
            && |content| == |m.calls| + 1
            && content[0] == Text(m.text.GetOr(""))
            && forall k :: 0 <= k < |m.calls| ==> BlockAgrees(content[k + 1], m.calls[k].call)
  {
    AssembledMatches(id, inputs);
    var m := Merge(inputs).value;
    MatchedContent(m, Run(INIT, inputs).state, Assembled(id, inputs));
  }

  lemma MatchedContent(m: Merging, st: State, a: Assembly)
    requires Matches(m, st, a) && forall k :: 0 <= k < |m.calls| ==> Complete(m.calls[k].call)
    ensures var content := ContentOf(a.blocks);
            && |content| == |m.calls| + 1
            && content[0] == Text(m.text.GetOr(""))
            && forall k :: 0 <= k < |m.calls| ==> BlockAgrees(content[k + 1], m.calls[k].call)
  {
    ContentOfRange(a.blocks, 0, |m.calls| + 1);
    var content := ContentOf(a.blocks);
    forall k | 0 <= k < |m.calls| ensures BlockAgrees(content[k + 1], m.calls[k].call) {
      ClosedBlockAgrees(m.calls[k], st.calls[k], k, a.blocks);
      assert content[k + 1] == Close(a.blocks[0 + (k + 1)]);
    }
  }

  function Calls(m: Merging): seq<UnaryCall> {
    seq(|m.calls|, k requires 0 <= k < |m.calls| => m.calls[k].call)
  }

  function AsMessage(m: Merging): Message {
    Message(m.text, Calls(m), m.finish)
  }

  /**
   * Streaming refines the unary conversion. For every tidy way of cutting a response into
   * chunks the stop reason is the unary one, and the assembled content is the unary content
   * (up to an empty leading text block) exactly when all arguments are object texts.
   */
  lemma StreamRefinesUnary(id: string, inputs: seq<Input>)
    requires Tidy(inputs)
    ensures var m := Merge(inputs).value;
            && Assembled(id, inputs).id == Some(id)
            && MessageDelta(StopOf(m.finish), Run(INIT, inputs).state.usage) in Stream(id, inputs)
            && (DropEmptyLead(ContentOf(Assembled(id, inputs).blocks)) == DropEmptyLead(UnaryContent(AsMessage(m)))
                <==> forall k :: 0 <= k < |m.calls| ==> IsObjectText(m.calls[k].call.arguments))
  {
    AssembledMatches(id, inputs);
    AssembledContent(id, inputs);
    StopAnnounced(id, inputs);
    var m := Merge(inputs).value;
    MatchedAreFunctions(m, Run(INIT, inputs).state, Assembled(id, inputs));
    ToolContentsAt(Calls(m));
    LeadDropped(ContentOf(Assembled(id, inputs).blocks), m);
  }

  /** An untidy case: whatever arguments come before the call has its name, none of them arrives. */
  lemma EarlyArgumentsAreLost(id: string, arguments: string)
    ensures var fragments := [ToolDelta(0, "call", "", Some(arguments)), ToolDelta(0, "", "tool", None)];
            var inputs := [Chunk(None, Some(Choice(Some(Delta(None, fragments)), "")))];
            Assembled(id, inputs).blocks == map[0 := TextPart(""), 1 := ToolPart("call", "tool", "")]
  {
    hide Loads, TakeAll;
    var early, named := ToolDelta(0, "call", "", Some(arguments)), ToolDelta(0, "", "tool", None);
    var inputs := [Chunk(None, Some(Choice(Some(Delta(None, [early, named])), "")))];
    var (st1, none) := ToolStep(INIT, early);
    var (st2, started) := ToolStep(st1, named);
    assert st1.calls == [Call(0, "call", "", "", false, None)] && none == [];
    assert started == [BlockStart(1, ToolBlock("call", "tool"))];
    assert [early, named][1..] == [named] && [named][1..] == [] && inputs[1..] == [];
    assert ToolSteps(st1, [named]) == Stepped(st2, started + [], false);
    assert ToolSteps(INIT, [early, named]) == Stepped(st2, started, false);
    var step := ChunkStep(INIT, None, inputs[0].choice);
    assert step.events == started && Run(step.state, inputs[1..]) == Ran(step.state, [], None);
    var ran := Run(INIT, inputs);
    assert ran.events == started && ran.failure.None?;
    PreambleAssembled(id);
    TakeAllConcat(NOTHING, Preamble(id), started);
    var a := Assembly(Some(id), map[0 := TextPart("")]);
    TakeOne(a, started[0]);
    TakeAllConcat(NOTHING, Preamble(id) + started, Closing(ran));
    ClosingChangesNothing(TakeAll(a, started), Closing(ran));
  }

  lemma TakeOne(a: Assembly, event: Event)
    ensures TakeAll(a, [event]) == Take(a, event)
  {
    assert [event][1..] == [];
  }

  lemma MatchedAreFunctions(m: Merging, st: State, a: Assembly)
    requires Matches(m, st, a)
    ensures forall k :: 0 <= k < |m.calls| ==> m.calls[k].call.isFunction
  {
    forall k | 0 <= k < |m.calls| ensures m.calls[k].call.isFunction {
      assert CallMatches(m.calls[k], st.calls[k], k, a.blocks);
    }
  }

  lemma StopAnnounced(id: string, inputs: seq<Input>)
    requires Run(INIT, inputs).failure.None?
    ensures MessageDelta(Run(INIT, inputs).state.stop, Run(INIT, inputs).state.usage) in Stream(id, inputs)
  {
    var closing := Closing(Run(INIT, inputs));
    assert closing[|closing| - 2] in Stream(id, inputs);
  }

  function Lead(m: Merging): seq<Content> {
    if m.text.GetOr("") == "" then [] else [Text(m.text.GetOr(""))]
  }

  lemma UnaryLeadDropped(m: Merging)
    requires forall k :: 0 <= k < |ToolContents(Calls(m))| ==> ToolContents(Calls(m))[k].ToolUseContent?
    ensures DropEmptyLead(UnaryContent(AsMessage(m))) == Lead(m) + ToolContents(Calls(m))
  {
    var tools := ToolContents(Calls(m));
    match m.text
    case None =>
      assert [] + tools == tools;
    case Some(text) =>
      assert ([Text(text)] + tools)[1..] == tools;
      assert [] + tools == tools;
  }

  lemma AssembledLeadDropped(content: seq<Content>, m: Merging)
    requires content != [] && content[0] == Text(m.text.GetOr(""))
    ensures DropEmptyLead(content) == Lead(m) + content[1..]
  {
    assert content == [content[0]] + content[1..];
    assert [] + content[1..] == content[1..];
  }

  lemma LeadDropped(content: seq<Content>, m: Merging)
    requires |content| == |m.calls| + 1 && content[0] == Text(m.text.GetOr(""))
    requires |ToolContents(Calls(m))| == |m.calls|
    requires forall k :: 0 <= k < |m.calls| ==>
               && BlockAgrees(content[k + 1], m.calls[k].call)
               && ToolContents(Calls(m))[k] == ToolUseContent(m.calls[k].call.id, m.calls[k].call.name, UnaryInput(m.calls[k].call.arguments))
    ensures (DropEmptyLead(content) == DropEmptyLead(UnaryContent(AsMessage(m))))
              <==> (forall k :: 0 <= k < |m.calls| ==> IsObjectText(m.calls[k].call.arguments))
  {
    var tools, blocks := ToolContents(Calls(m)), content[1..];
    UnaryLeadDropped(m);
    AssembledLeadDropped(content, m);
    SamePrefix(Lead(m), blocks, tools);
    forall k | 0 <= k < |m.calls| ensures blocks[k] == tools[k] <==> IsObjectText(m.calls[k].call.arguments) {
      assert blocks[k] == content[k + 1];
    }
  }

  lemma SamePrefix(lead: seq<Content>, x: seq<Content>, y: seq<Content>)
    ensures lead + x == lead + y <==> x == y
  {
    if lead + x == lead + y {
      assert (lead + x)[|lead|..] == x && (lead + y)[|lead|..] == y;
    }
  }
}
