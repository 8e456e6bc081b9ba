/**
 * The streaming converter of the Responses API. A function call's id and name
 * arrive in one event, so its block opens at once; its arguments go out when
 * the buffer first parses, or with the event that carries them whole.
 */
module ResponsesStream {
  import opened Common
  import opened Events
  import opened ResponsesOutput
  import Json
  import ChatStream

  datatype Event_ =
    | OutputText(delta: string)
    | FunctionCallAdded(outputIndex: int, callId: string, itemId: string, name: string)
    | ArgumentsDelta(outputIndex: int, delta: string)
    | ArgumentsDone(outputIndex: int, arguments: string)
    | Terminal(response: Response)
    | ErrorEvent(message: string)
    | OtherEvent   // ignored types, unknown types, and added items that are no function call
    | BrokenEvent  // JSON on which reading a field raises

  datatype Input = Skipped | Done | Got(event: Event_) | Disconnected | Raises(error: ChatStream.Raised)

  datatype Call = Call(key: int, block: nat, buffer: string, sent: bool)

  datatype State = State(calls: seq<Call>, counter: nat, stop: StopReason, usage: Usage)

  const INIT := State([], 0, EndTurn, NO_USAGE)

  const FAILED_STATUS := 502

  /** How one event leaves the loop: it goes on, it ends normally, or with an error frame. */
  datatype Verdict = GoOn | Finish(output: seq<OutputItem>) | Fail(failure: Failure)

  function Find(calls: seq<Call>, key: int): (k: nat)
    ensures k <= |calls| && (k < |calls| ==> calls[k].key == key)
    ensures forall j :: 0 <= j < k ==> calls[j].key != key
  {
    if calls == [] then 0
    else if calls[0].key == key then 0
    else 1 + Find(calls[1..], key)
  }

  /** Setting a key keeps the place it was first set at. */
  function Put(calls: seq<Call>, call: Call): seq<Call> {
    var k := Find(calls, call.key);
    if k < |calls| then calls[k := call] else calls + [call]
  }

  function OrElse(a: string, b: string): string {
    if a != "" then a else b
  }

  function Step(st: State, e: Event_): (State, seq<Event>, Verdict) {
    match e
    case OutputText(delta) => (st, if delta != "" then [TextDelta(0, delta)] else [], GoOn)
    case FunctionCallAdded(key, callId, itemId, name) =>
      var block := st.counter + 1;
      (st.(counter := block, calls := Put(st.calls, Call(key, block, "", false))),
       [BlockStart(block, ToolBlock(OrElse(callId, itemId), name))], GoOn)
    case ArgumentsDelta(key, delta) =>
      var k := Find(st.calls, key);
      if k == |st.calls| || delta == "" || st.calls[k].sent then (st, [], GoOn)
      else
        var call := st.calls[k].(buffer := st.calls[k].buffer + delta);
        if Json.Loads(call.buffer).Some?
        then (st.(calls := Put(st.calls, call.(sent := true))), [InputDelta(call.block, call.buffer)], GoOn)
        else (st.(calls := Put(st.calls, call)), [], GoOn)
    case ArgumentsDone(key, arguments) =>
      var k := Find(st.calls, key);
      if k == |st.calls| || st.calls[k].sent then (st, [], GoOn)
      else
        var call := st.calls[k].(buffer := OrElse(arguments, "{}"), sent := true);
        (st.(calls := Put(st.calls, call)), [InputDelta(call.block, call.buffer)], GoOn)
    case Terminal(response) =>
      var st1 := st.(usage := response.usage);
      if response.status == FailedStatus
      then (st1, [], Fail(UpstreamError(FAILED_STATUS, OrElse(response.message, "upstream response failed"))))
      else (st1.(stop := StopReasonOf(response, st.calls != [])), [], Finish(response.output))
    case ErrorEvent(message) => (st, [], Fail(UpstreamError(FAILED_STATUS, OrElse(message, "upstream stream error"))))
    case OtherEvent => (st, [], GoOn)
    case BrokenEvent => (st, [], Fail(Unexpected))
  }

  /** `output` is what the terminal event hands to the reasoning cache. */
  datatype Ran = Ran(state: State, events: seq<Event>, failure: Option<Failure>, output: seq<OutputItem>)

  function Run(st: State, inputs: seq<Input>): Ran
    decreases |inputs|
  {
    if inputs == [] then Ran(st, [], None, []) else
    match inputs[0]
    case Skipped => Run(st, inputs[1..])
    case Done => Ran(st, [], None, [])
    case Disconnected => Ran(st, [], None, [])
    case Raises(error) => Ran(st, [], ChatStream.FailureOf(error), [])
    case Got(event) =>
      var (st1, events, verdict) := Step(st, event);
      match verdict
      case GoOn => var rest := Run(st1, inputs[1..]); rest.(events := events + rest.events)
      case Finish(output) => Ran(st1, events, None, output)
      case Fail(failure) => Ran(st1, events, Some(failure), [])
  }

  function Blocks(calls: seq<Call>): seq<nat> {
    seq(|calls|, k requires 0 <= k < |calls| => calls[k].block)
  }

  function Closing(ran: Ran): seq<Event> {
    match ran.failure
    case Some(failure) => [ErrorFrame(failure)]
    case None => Tail([0] + Blocks(ran.state.calls), ran.state.stop, ran.state.usage)
  }

  function Stream(id: string, inputs: seq<Input>): seq<Event> {
    var ran := Run(INIT, inputs);
    ChatStream.Preamble(id) + ran.events + Closing(ran)
  }

  // ----- the converter as it runs

  method TakeEvent(st: State, e: Event_) returns (st': State, events: seq<Event>, verdict: Verdict)
    ensures Step(st, e) == (st', events, verdict)
  {
    var calls, counter, stop, usage := st.calls, st.counter, st.stop, st.usage;
    events, verdict := [], GoOn;
    match e {
      case OutputText(delta) =>
        if delta != "" {
          events := [TextDelta(0, delta)];
        }
      case FunctionCallAdded(key, callId, itemId, name) =>
        counter := counter + 1;
        calls := Put(calls, Call(key, counter, "", false));
        events := [BlockStart(counter, ToolBlock(OrElse(callId, itemId), name))];
      case ArgumentsDelta(key, delta) =>
        var k := Find(calls, key);
        if k < |calls| && delta != "" && !calls[k].sent {
          var call := calls[k];
          call := call.(buffer := call.buffer + delta);
          if Json.Loads(call.buffer).Some? {
            events := [InputDelta(call.block, call.buffer)];
            call := call.(sent := true);
          }
          calls := calls[k := call];
        }
      case ArgumentsDone(key, arguments) =>
        var k := Find(calls, key);
        if k < |calls| && !calls[k].sent {
          var call := calls[k].(buffer := OrElse(arguments, "{}"));
          events := [InputDelta(call.block, call.buffer)];
          calls := calls[k := call.(sent := true)];
        }
      case Terminal(response) =>
        usage := response.usage;
        if response.status == FailedStatus {
          verdict := Fail(UpstreamError(FAILED_STATUS, OrElse(response.message, "upstream response failed")));
        } else {
          stop := StopReasonOf(response, calls != []);
          verdict := Finish(response.output);
        }
      case ErrorEvent(message) =>
        verdict := Fail(UpstreamError(FAILED_STATUS, OrElse(message, "upstream stream error")));
      case OtherEvent =>
      case BrokenEvent =>
        verdict := Fail(Unexpected);
    }
    st' := State(calls, counter, stop, usage);
  }

  method Convert(id: string, inputs: seq<Input>) returns (events: seq<Event>, output: seq<OutputItem>)
    ensures events == Stream(id, inputs)
    ensures output == Run(INIT, inputs).output
  {
    var st, more, failure;
    st, more, failure, output := Relay(inputs);
    events := [MessageStart(id), BlockStart(0, TextBlock), Ping] + more;
    if failure.Some? {
      events := events + [ErrorFrame(failure.value)];
      return;
    }
    events := events + [BlockStop(0)];
    ghost var before := events;
    var j := 0;
    while j < |st.calls|
      invariant 0 <= j <= |st.calls|
      invariant events == before + Stops(Blocks(st.calls)[..j])
    {
      events := events + [BlockStop(st.calls[j].block)];
      j := j + 1;
    }
    assert Blocks(st.calls)[..j] == Blocks(st.calls);
    assert [BlockStop(0)] + Stops(Blocks(st.calls)) == Stops([0] + Blocks(st.calls));
    events := events + [MessageDelta(st.stop, st.usage), MessageStop];
  }

  method Relay(inputs: seq<Input>)
    returns (st: State, events: seq<Event>, failure: Option<Failure>, output: seq<OutputItem>)
    ensures Run(INIT, inputs) == Ran(st, events, failure, output)
  {
    st, events, failure, output := INIT, [], None, [];
    var i := 0;
    while i < |inputs|
      invariant 0 <= i <= |inputs|
      invariant failure.None? && output == []
      invariant var rest := Run(st, inputs[i..]);
                Run(INIT, inputs) == rest.(events := events + rest.events)
    {
      match inputs[i] {
        case Skipped =>
        case Done => return;
        case Disconnected => return;
        case Raises(error) => failure := ChatStream.FailureOf(error); return;
        case Got(event) =>
          var more, verdict;
          st, more, verdict := TakeEvent(st, event);
          events := events + more;
          match verdict {
            case GoOn =>
            case Finish(items) => output := items; return;
            case Fail(why) => failure := Some(why); return;
          }
      }
      i := i + 1;
    }
  }
}
