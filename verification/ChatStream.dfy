/**
 * The streaming converter of Chat Completions: upstream chunks in, Anthropic
 * events out.
 *
 * An input is what one turn of the converter's loop can meet: a line, a
 * client found gone when a line arrived, or an exception raised by the
 * upstream iteration. A field of a chunk that is missing, null or empty where
 * the code treats these alike is an empty string or None here.
 */
module ChatStream {
  import opened Common
  import opened Events
  import Json

  datatype ToolDelta =
    | ToolDelta(index: int, id: string, name: string, arguments: Option<string>)
    | BrokenTool  // an entry on which reading a field raises

  datatype Delta = Delta(content: Option<string>, tools: seq<ToolDelta>)

  /** `choices[0]`: a null delta is None, a missing finish reason the empty string. */
  datatype Choice = Choice(delta: Option<Delta>, finish: string)

  datatype Raised = ProviderCancelled | Provider(status: int, message: string) | Api(status: int, message: string)
    | Transport | Other

  datatype Input =
    | Skipped                  // blank, not a data line, or not JSON
    | Done                     // [DONE]
    | Chunk(usage: Option<Usage>, choice: Option<Choice>)
    | Disconnected
    | Raises(error: Raised)

  /** One accumulated tool call; `block` is its content block once started. */
  datatype Call = Call(key: int, id: string, name: string, buffer: string, sent: bool, block: Option<nat>)

  datatype State = State(calls: seq<Call>, counter: nat, stop: StopReason, usage: Usage)

  const INIT := State([], 0, EndTurn, NO_USAGE)

  /** Events of a stretch, and whether it broke off with an exception. */
  datatype Stepped = Stepped(state: State, events: seq<Event>, broke: bool)

  function Find(calls: seq<Call>, key: int): (k: nat)
    ensures k <= |calls| && (k < |calls| ==> calls[k].key == key)
    ensures forall j :: 0 <= j < k ==> calls[j].key != key
  {
    if calls == [] then 0
    else if calls[0].key == key then 0
    else 1 + Find(calls[1..], key)
  }

  function Put(calls: seq<Call>, k: nat, call: Call): seq<Call>
    requires k <= |calls|
  {
    if k < |calls| then calls[k := call] else calls + [call]
  }

  /** The record of a call after a fragment's id and name were taken over. */
  function Named(calls: seq<Call>, d: ToolDelta): Call
    requires d.ToolDelta?
  {
    var k := Find(calls, d.index);
    var call := if k < |calls| then calls[k] else Call(d.index, "", "", "", false, None);
    call.(id := if d.id != "" then d.id else call.id, name := if d.name != "" then d.name else call.name)
  }

  predicate Starts(call: Call) {
    call.id != "" && call.name != "" && call.block.None?
  }

  /** The argument part of a fragment: grow the buffer, send it once it first parses. */
  function TakeArguments(call: Call, arguments: Option<string>): (Call, seq<Event>) {
    if arguments.None? || call.block.None? then (call, [])
    else
      var buffer := call.buffer + arguments.value;
      if Json.Loads(buffer).Some? && !call.sent
      then (call.(buffer := buffer, sent := true), [InputDelta(call.block.value, buffer)])
      else (call.(buffer := buffer), [])
  }

  function ToolStep(st: State, d: ToolDelta): (State, seq<Event>)
    requires d.ToolDelta?
  {
    var k := Find(st.calls, d.index);
    var named := Named(st.calls, d);
    if Starts(named) then
      var started := named.(block := Some(st.counter + 1));
      var (call, events) := TakeArguments(started, d.arguments);
      (st.(calls := Put(st.calls, k, call), counter := st.counter + 1),
       [BlockStart(st.counter + 1, ToolBlock(named.id, named.name))] + events)
    else
      var (call, events) := TakeArguments(named, d.arguments);
      (st.(calls := Put(st.calls, k, call)), events)
  }

  function ToolSteps(st: State, tools: seq<ToolDelta>): Stepped
    decreases |tools|
  {
    if tools == [] then Stepped(st, [], false)
    else if tools[0].BrokenTool? then Stepped(st, [], true)
    else
      var (st1, events) := ToolStep(st, tools[0]);
      var rest := ToolSteps(st1, tools[1..]);
      rest.(events := events + rest.events)
  }

  function StopOf(finish: string): StopReason {
    if finish == "length" then MaxTokens
    else if finish == "tool_calls" || finish == "function_call" then ToolUse
    else EndTurn
  }

  function TextEvents(delta: Option<Delta>): seq<Event> {
    if delta.Some? && delta.value.content.Some? then [TextDelta(0, delta.value.content.value)] else []
  }

  function ChoiceStep(st: State, c: Choice): Stepped {
    if c.delta.None? then Stepped(st, [], true)
    else
      var s := ToolSteps(st, c.delta.value.tools);
      Stepped(if s.broke || c.finish == "" then s.state else s.state.(stop := StopOf(c.finish)),
              TextEvents(c.delta) + s.events, s.broke)
  }

  function ChunkStep(st: State, usage: Option<Usage>, choice: Option<Choice>): Stepped {
    var st1 := st.(usage := usage.GetOr(st.usage));
    if choice.None? then Stepped(st1, [], false) else ChoiceStep(st1, choice.value)
  }

  /** How the loop over the upstream lines ends. */
  datatype Ran = Ran(state: State, events: seq<Event>, failure: Option<Failure>)

  function FailureOf(error: Raised): Option<Failure> {
    match error
    case ProviderCancelled => Some(CancelledByClient)
    case Provider(status, message) => Some(UpstreamError(status, message))
    case Api(status, message) => Some(UpstreamError(status, message))
    case Transport => None
    case Other => Some(Unexpected)
  }

  function Run(st: State, inputs: seq<Input>): Ran
    decreases |inputs|
  {
    if inputs == [] then Ran(st, [], None) else
    match inputs[0]
    case Skipped => Run(st, inputs[1..])
    case Done => Ran(st, [], None)
    case Disconnected => Ran(st, [], None)
    case Raises(error) => Ran(st, [], FailureOf(error))
    case Chunk(usage, choice) =>
      var s := ChunkStep(st, usage, choice);
      if s.broke then Ran(s.state, s.events, Some(Unexpected))
      else var rest := Run(s.state, inputs[1..]); rest.(events := s.events + rest.events)
  }

  /** The blocks to stop after the text block: those of the started calls, in record order. */
  function Blocks(calls: seq<Call>): seq<nat> {
    if calls == [] then []
    else (if calls[0].block.Some? then [calls[0].block.value] else []) + Blocks(calls[1..])
  }

  function Preamble(id: string): seq<Event> {
    [MessageStart(id), BlockStart(0, TextBlock), Ping]
  }

  function Closing(ran: Ran): seq<Event> {
    match ran.failure
    case Some(failure) => [ErrorFrame(failure)]
    case None => Tail([0] + Blocks(ran.state.calls), ran.state.stop, ran.state.usage)
  }

  function Stream(id: string, inputs: seq<Input>): seq<Event> {
    var ran := Run(INIT, inputs);
    Preamble(id) + ran.events + Closing(ran)
  }

  // ----- the converter as it runs

  /** One fragment of a tool call, in the order the code looks at its fields. */
  /** What a fragment does: only the call it names changes, a block starts once there are id and name, and input goes out once. */
  predicate Taken(calls: seq<Call>, counter: nat, d: ToolDelta, calls': seq<Call>, counter': nat, events: seq<Event>)
    requires d.ToolDelta?
  {
    var k := Find(calls, d.index);
    var isNew := k == |calls|;
    && |calls'| == (if isNew then k + 1 else |calls|)
    && (forall j :: 0 <= j < |calls| && j != k ==> calls'[j] == calls[j])
    && var call := calls'[k];
       var before := if isNew then "" else calls[k].buffer;
       var wasSent, had := !isNew && calls[k].sent, if isNew then None else calls[k].block;
       var starts := had.None? && call.id != "" && call.name != "";
       var grows := d.arguments.Some? && call.block.Some?;
       var sends := grows && !wasSent && Json.Loads(call.buffer).Some?;
       && call.key == d.index
       && (d.id != "" ==> call.id == d.id) && (d.id == "" ==> call.id == if isNew then "" else calls[k].id)
       && (d.name != "" ==> call.name == d.name) && (d.name == "" ==> call.name == if isNew then "" else calls[k].name)
       && counter' == (if starts then counter + 1 else counter)
       && call.block == (if starts then Some(counter + 1) else had)
       && call.buffer == (if grows then before + d.arguments.value else before)
       && (call.sent <==> wasSent || sends)
       && |events| == (if starts then 1 else 0) + (if sends then 1 else 0)
       && (starts ==> events[0] == BlockStart(counter + 1, ToolBlock(call.id, call.name)))
       && (sends ==> events[|events| - 1] == InputDelta(call.block.value, call.buffer))
  }

  lemma StepIsTaken(st: State, d: ToolDelta)
    requires d.ToolDelta?
    ensures var (after, events) := ToolStep(st, d);
            Taken(st.calls, st.counter, d, after.calls, after.counter, events) && after.stop == st.stop && after.usage == st.usage
  {
    hide Json.Loads;
  }

  method TakeFragment(calls: seq<Call>, counter: nat, d: ToolDelta, ghost st: State)
    returns (calls': seq<Call>, counter': nat, events: seq<Event>)
    requires d.ToolDelta? && st.calls == calls && st.counter == counter
    ensures ToolStep(st, d) == (st.(calls := calls', counter := counter'), events)
    ensures Taken(calls, counter, d, calls', counter', events)
  {
    hide Json.Loads, Taken;
    StepIsTaken(st, d);
    counter', events := counter, [];
    var k := Find(calls, d.index);
    var call := if k < |calls| then calls[k] else Call(d.index, "", "", "", false, None);
    if d.id != "" {
      call := call.(id := d.id);
    }
    if d.name != "" {
      call := call.(name := d.name);
    }
    ghost var named := call;
    if call.id != "" && call.name != "" && call.block.None? {
      counter' := counter' + 1;
      call := call.(block := Some(counter'));
      events := [BlockStart(counter', ToolBlock(call.id, call.name))];
    }
    ghost var starts, taken := events, TakeArguments(call, d.arguments);
    if d.arguments.Some? && call.block.Some? {
      call := call.(buffer := call.buffer + d.arguments.value);
      if Json.Loads(call.buffer).Some? {
        if !call.sent {
          events := events + [InputDelta(call.block.value, call.buffer)];
          call := call.(sent := true);
        }
      }
    }
    assert named == Named(calls, d);
    assert call == taken.0 && events == starts + taken.1;
    assert starts == [] ==> events == taken.1;
    calls' := if k < |calls| then calls[k := call] else calls + [call];
  }

  lemma ToolStepsSplit(st: State, tools: seq<ToolDelta>)
    requires tools != [] && tools[0].ToolDelta?
    ensures var (st1, events) := ToolStep(st, tools[0]);
            var rest := ToolSteps(st1, tools[1..]);
            ToolSteps(st, tools) == Stepped(rest.state, events + rest.events, rest.broke)
  {
  }

  method TakeFragments(calls: seq<Call>, counter: nat, tools: seq<ToolDelta>, ghost st: State)
    returns (calls': seq<Call>, counter': nat, events: seq<Event>, broke: bool)
    requires st.calls == calls && st.counter == counter
    ensures ToolSteps(st, tools) == Stepped(st.(calls := calls', counter := counter'), events, broke)
  {
    hide Taken, ToolStep;
    calls', counter', events, broke := calls, counter, [], false;
    var i := 0;
    while i < |tools|
      invariant 0 <= i <= |tools|
      invariant var rest := ToolSteps(st.(calls := calls', counter := counter'), tools[i..]);
                ToolSteps(st, tools) == rest.(events := events + rest.events)
    {
      if tools[i].BrokenTool? {
        broke := true;
        return;
      }
      ghost var here := st.(calls := calls', counter := counter');
      ToolStepsSplit(here, tools[i..]);
      var more;
      calls', counter', more := TakeFragment(calls', counter', tools[i], here);
      events := events + more;
      i := i + 1;
    }
  }

  /** The work done for one parsed chunk; `broke` says that reading it raised. */
  method TakeChunk(st: State, newUsage: Option<Usage>, choice: Option<Choice>)
    returns (st': State, events: seq<Event>, broke: bool)
    ensures ChunkStep(st, newUsage, choice) == Stepped(st', events, broke)
  {
    events, broke := [], false;
    var calls, counter, stop, usage := st.calls, st.counter, st.stop, newUsage.GetOr(st.usage);
    if choice.Some? {
      if choice.value.delta.None? {
        return State(calls, counter, stop, usage), events, true;
      }
      var delta := choice.value.delta.value;
      if delta.content.Some? {
        events := [TextDelta(0, delta.content.value)];
      }
      var more;
      calls, counter, more, broke := TakeFragments(calls, counter, delta.tools, State(calls, counter, stop, usage));
      events := events + more;
      if !broke && choice.value.finish != "" {
        stop := StopOf(choice.value.finish);
      }
    }
    st' := State(calls, counter, stop, usage);
  }

  /** The loop over the upstream lines, up to its end, its break or its exception. */
  method Relay(inputs: seq<Input>) returns (st: State, events: seq<Event>, failure: Option<Failure>)
    ensures Run(INIT, inputs) == Ran(st, events, failure)
  {
    st, events, failure := INIT, [], None;
    var i := 0;
    while i < |inputs|
      invariant 0 <= i <= |inputs|
      invariant failure.None?
      invariant var rest := Run(st, inputs[i..]);
                Run(INIT, inputs) == rest.(events := events + rest.events)
    {
      match inputs[i] {
        case Skipped =>
        case Done => return;
        case Disconnected => return;
        case Raises(error) => failure := FailureOf(error); return;
        case Chunk(newUsage, choice) =>
          var more, broke;
          st, more, broke := TakeChunk(st, newUsage, choice);
          events := events + more;
          if broke {
            failure := Some(Unexpected);
            return;
          }
      }
      i := i + 1;
    }
  }

  /** One stop per started tool call, in the order the calls were first seen. */
  method StopBlocks(calls: seq<Call>) returns (events: seq<Event>)
    ensures events == Stops(Blocks(calls))
  {
    events := [];
    var j := 0;
    while j < |calls|
      invariant 0 <= j <= |calls|
      invariant events + Stops(Blocks(calls[j..])) == Stops(Blocks(calls))
    {
      if calls[j].block.Some? {
        events := events + [BlockStop(calls[j].block.value)];
      }
      j := j + 1;
    }
  }

  method Convert(id: string, inputs: seq<Input>) returns (events: seq<Event>)
    ensures events == Stream(id, inputs)
  {
    events := [MessageStart(id), BlockStart(0, TextBlock), Ping];
    var st, more, failure := Relay(inputs);
    events := events + more;
    if failure.Some? {
      events := events + [ErrorFrame(failure.value)];
      return;
    }
    events := events + [BlockStop(0)];
    var stops := StopBlocks(st.calls);
    events := events + stops + [MessageDelta(st.stop, st.usage), MessageStop];
    assert [BlockStop(0)] + stops == Stops([0] + Blocks(st.calls));
  }
}
