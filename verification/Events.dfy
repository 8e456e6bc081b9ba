/**
 * The Anthropic streaming events the converters emit, and the automaton that
 * says which sequences of them are a well-formed stream.
 */
module Events {
  import opened Common

  datatype StopReason = EndTurn | MaxTokens | ToolUse

  /** Token counts of the final `message_delta`; the cache count is absent until the upstream reports usage. */
  datatype Usage = Usage(input: int, output: int, cacheRead: Option<int>)

  const NO_USAGE := Usage(0, 0, None)

  /** Why a stream ends with an error frame. */
  datatype Failure =
    | CancelledByClient
    | UpstreamError(status: int, message: string)
    | Unexpected

  datatype BlockKind = TextBlock | ToolBlock(id: string, name: string)

  datatype Event =
    | MessageStart(id: string)
    | BlockStart(index: nat, kind: BlockKind)
    | Ping
    | TextDelta(index: nat, text: string)
    | InputDelta(index: nat, json: string)
    | BlockStop(index: nat)
    | MessageDelta(stop: StopReason, usage: Usage)
    | MessageStop
    | ErrorFrame(failure: Failure)

  /** An open block: a tool block remembers whether its input went out. */
  datatype OpenBlock = OpenText | OpenTool(inputSent: bool)

  datatype Progress =
    | Unstarted
    | Streaming(open: map<nat, OpenBlock>, started: nat)
    | Ending
    | Complete
    | Failed
    | Malformed

  function Advance(p: Progress, e: Event): Progress {
    match p
    case Unstarted => if e.MessageStart? then Streaming(map[], 0) else Malformed
    case Streaming(open, started) =>
      (match e
       case Ping => p
       case BlockStart(index, kind) =>
         if index != started then Malformed
         else Streaming(open[index := if kind.TextBlock? then OpenText else OpenTool(false)], started + 1)
       case TextDelta(index, _) => if index in open && open[index].OpenText? then p else Malformed
       case InputDelta(index, _) =>
         if index in open && open[index] == OpenTool(false) then p.(open := open[index := OpenTool(true)])
         else Malformed
       case BlockStop(index) => if index in open then p.(open := open - {index}) else Malformed
       case MessageDelta(_, _) => if open == map[] && started > 0 then Ending else Malformed
       case ErrorFrame(_) => Failed
       case _ => Malformed)
    case Ending => if e.MessageStop? then Complete else Malformed
    case Complete => Malformed
    case Failed => Malformed
    case Malformed => Malformed
  }

  function AdvanceAll(p: Progress, events: seq<Event>): Progress
    decreases |events|
  {
    if events == [] then p else AdvanceAll(Advance(p, events[0]), events[1..])
  }

  /**
   * A whole stream: `message_start`, block indices from 0 without gaps, deltas only on
   * open blocks and at most one input per tool block, every block stopped once, then
   * `message_delta` and `message_stop`; or an error frame at any moment. Nothing after either.
   */
  predicate WellFormed(events: seq<Event>) {
    AdvanceAll(Unstarted, events) in {Complete, Failed}
  }

  lemma {:induction false} AdvanceAllConcat(p: Progress, a: seq<Event>, b: seq<Event>)
    ensures AdvanceAll(p, a + b) == AdvanceAll(AdvanceAll(p, a), b)
    decreases |a|
  {
    if a == [] {
      assert a + b == b;
    } else {
      assert (a + b)[1..] == a[1..] + b;
      AdvanceAllConcat(Advance(p, a[0]), a[1..], b);
    }
  }

  lemma AdvanceOne(p: Progress, e: Event)
    ensures AdvanceAll(p, [e]) == Advance(p, e) && AdvanceAll(p, []) == p
  {
    assert [e][1..] == [];
  }

  /** Stopping blocks one by one removes them from the open ones. */
  function Stops(indices: seq<nat>): seq<Event> {
    seq(|indices|, k requires 0 <= k < |indices| => BlockStop(indices[k]))
  }

  lemma {:induction false} StopsClose(open: map<nat, OpenBlock>, started: nat, indices: seq<nat>)
    requires forall i :: i in indices ==> i in open
    requires forall j, k :: 0 <= j < k < |indices| ==> indices[j] != indices[k]
    ensures AdvanceAll(Streaming(open, started), Stops(indices)) ==
              Streaming(open - (set i | i in indices), started)
  {
    if indices == [] {
      assert Stops(indices) == [];
      assert open - (set i | i in indices) == open;
    } else {
      var rest := open - {indices[0]};
      assert Stops(indices)[1..] == Stops(indices[1..]);
      StopsClose(rest, started, indices[1..]);
      assert rest - (set i | i in indices[1..]) == open - (set i | i in indices);
    }
  }

  /** The stops and the terminal events complete a stream exactly when they name every open block once. */
  function Tail(indices: seq<nat>, stop: StopReason, usage: Usage): seq<Event> {
    Stops(indices) + [MessageDelta(stop, usage), MessageStop]
  }

  lemma TailCompletes(open: map<nat, OpenBlock>, started: nat, indices: seq<nat>, stop: StopReason, usage: Usage)
    requires started > 0
    requires forall i :: i in indices ==> i in open
    requires forall j, k :: 0 <= j < k < |indices| ==> indices[j] != indices[k]
    ensures AdvanceAll(Streaming(open, started), Tail(indices, stop, usage)) ==
              if open.Keys == (set i | i in indices) then Complete else Malformed
  {
    var p := Streaming(open, started);
    var last := [MessageDelta(stop, usage), MessageStop];
    AdvanceAllConcat(p, Stops(indices), last);
    StopsClose(open, started, indices);
    var left := open - (set i | i in indices);
    assert last[1..] == [MessageStop] && last[1..][1..] == [];
    var stopped := set i | i in indices;
    assert left.Keys == open.Keys - stopped && stopped <= open.Keys;
    if left == map[] {
      forall i | i in open.Keys ensures i in stopped {
        assert i !in left.Keys;
      }
      assert open.Keys == stopped;
    }
    var q := Advance(Streaming(left, started), last[0]);
    assert AdvanceAll(Streaming(left, started), last) == AdvanceAll(Advance(q, MessageStop), []);
  }
}
