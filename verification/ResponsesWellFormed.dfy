/**
 * When the Responses converter's output is a well-formed stream: always when
 * it ends with an error frame, and otherwise exactly when no two function
 * calls came under one output index. A repeated index overwrites the record
 * of the earlier call, whose block is then never stopped.
 */
module ResponsesWellFormed {
  import opened Common
  import opened Events
  import opened ResponsesOutput
  import opened ResponsesStream
  import ChatStream
  import ChatWellFormed

  /** The output indices of the function calls the converter reads before it stops. */
  function AddedIndices(inputs: seq<Input>): seq<int> {
    if inputs == [] then [] else
    match inputs[0]
    case Skipped => AddedIndices(inputs[1..])
    case Got(event) =>
      if event.Terminal? || event.ErrorEvent? || event.BrokenEvent? then []
      else (if event.FunctionCallAdded? then [event.outputIndex] else []) + AddedIndices(inputs[1..])
    case _ => []
  }

  predicate Distinct<T(==)>(xs: seq<T>) {
    forall j, k :: 0 <= j < k < |xs| ==> xs[j] != xs[k]
  }

  /** The keys of the records, in order. */
  function Keys(calls: seq<Call>): seq<int> {
    seq(|calls|, k requires 0 <= k < |calls| => calls[k].key)
  }

  ghost predicate Tracks(st: State, p: Progress) {
    && p.Streaming? && p.started == st.counter + 1
    && (forall b: nat :: b in p.open <==> b <= st.counter)
    && p.open[0] == OpenText
    && (forall k :: 0 <= k < |st.calls| ==>
          1 <= st.calls[k].block <= st.counter && p.open[st.calls[k].block] == OpenTool(st.calls[k].sent))
    && Distinct(Blocks(st.calls)) && Distinct(Keys(st.calls))
  }

  lemma FindUnique(calls: seq<Call>, k: nat)
    requires k < |calls| && Distinct(Keys(calls))
    ensures Find(calls, calls[k].key) == k
  {
    var j := Find(calls, calls[k].key);
    assert Keys(calls)[k] == calls[k].key;
    if j < |calls| {
      assert Keys(calls)[j] == calls[j].key;
    }
  }

  /** An update of one record that keeps its block and its key. */
  lemma UpdateTracks(st: State, k: nat, call: Call, p: Progress, events: seq<Event>)
    requires Tracks(st, p) && k < |st.calls|
    requires call.block == st.calls[k].block && call.key == st.calls[k].key && !st.calls[k].sent
    requires if call.sent then |events| == 1 && events[0].InputDelta? && events[0].index == call.block else events == []
    ensures Tracks(st.(calls := Put(st.calls, call)), AdvanceAll(p, events))
    ensures Keys(Put(st.calls, call)) == Keys(st.calls)
  {
    FindUnique(st.calls, k);
    var calls := Put(st.calls, call);
    assert Blocks(calls) == Blocks(st.calls) && Keys(calls) == Keys(st.calls);
    if call.sent {
      assert AdvanceAll(p, events) == AdvanceAll(Advance(p, events[0]), events[1..]) == Advance(p, events[0]);
      forall j | 0 <= j < |calls| && j != k ensures calls[j].block != call.block {
        assert Blocks(st.calls)[j] == st.calls[j].block && Blocks(st.calls)[k] == call.block;
      }
    }
  }

  lemma AddTracks(st: State, key: int, kind: BlockKind, p: Progress)
    requires Tracks(st, p) && kind.ToolBlock?
    ensures var b := st.counter + 1;
            var calls := Put(st.calls, Call(key, b, "", false));
            && Tracks(st.(counter := b, calls := calls), AdvanceAll(p, [BlockStart(b, kind)]))
            && Keys(calls) == if key in Keys(st.calls) then Keys(st.calls) else Keys(st.calls) + [key]
  {
    var b := st.counter + 1;
    var start := BlockStart(b, kind);
    var k := Find(st.calls, key);
    var calls := Put(st.calls, Call(key, b, "", false));
    assert AdvanceAll(p, [start]) == AdvanceAll(Advance(p, start), [start][1..]) == Advance(p, start);
    if k < |st.calls| {
      assert Keys(st.calls)[k] == key;
      assert Keys(calls) == Keys(st.calls);
      assert Blocks(calls) == Blocks(st.calls)[k := b];
    } else {
      assert Keys(calls) == Keys(st.calls) + [key];
      assert key !in Keys(st.calls);
      assert Blocks(calls) == Blocks(st.calls) + [b];
    }
    forall j | 0 <= j < |st.calls| ensures Blocks(st.calls)[j] != b {
      assert Blocks(st.calls)[j] == st.calls[j].block;
    }
  }

  lemma TextTracks(st: State, p: Progress, delta: string)
    requires Tracks(st, p)
    ensures AdvanceAll(p, []) == p && AdvanceAll(p, [TextDelta(0, delta)]) == p
  {
    AdvanceOne(p, TextDelta(0, delta));
  }

  lemma SameCallsTrack(st: State, st1: State, p: Progress)
    requires Tracks(st, p) && st1.calls == st.calls && st1.counter == st.counter
    ensures Tracks(st1, AdvanceAll(p, []))
  {
  }

  lemma StepTracks(st: State, e: Event_, p: Progress)
    requires Tracks(st, p)
    ensures var (st1, events, _) := Step(st, e);
            && Tracks(st1, AdvanceAll(p, events))
            && (if e.FunctionCallAdded? then
                  && st1.counter == st.counter + 1
                  && Keys(st1.calls) == (if e.outputIndex in Keys(st.calls) then Keys(st.calls) else Keys(st.calls) + [e.outputIndex])
                else st1.counter == st.counter && Keys(st1.calls) == Keys(st.calls))
  {
    hide Tracks, Json.Loads;
    var (st1, events, _) := Step(st, e);
    match e
    case OutputText(delta) => TextTracks(st, p, delta);
    case FunctionCallAdded(key, callId, itemId, name) =>
      AddTracks(st, key, ToolBlock(OrElse(callId, itemId), name), p);
    case ArgumentsDelta(key, delta) =>
      var k := Find(st.calls, key);
      AdvanceOne(p, Ping);
      if k < |st.calls| && delta != "" && !st.calls[k].sent {
        var call := st.calls[k].(buffer := st.calls[k].buffer + delta);
        UpdateTracks(st, k, if Json.Loads(call.buffer).Some? then call.(sent := true) else call, p, events);
      }
    case ArgumentsDone(key, arguments) =>
      var k := Find(st.calls, key);
      AdvanceOne(p, Ping);
      if k < |st.calls| && !st.calls[k].sent {
        UpdateTracks(st, k, st.calls[k].(buffer := OrElse(arguments, "{}"), sent := true), p, events);
      }
    case _ => SameCallsTrack(st, st1, p);
  }

  ghost predicate SameElements(xs: seq<int>, ys: seq<int>) {
    forall x :: x in xs <==> x in ys
  }

  /** The keys a state knows are those added so far, and its counter counts all of them. */
  ghost predicate Counts(st: State, added: seq<int>) {
    SameElements(Keys(st.calls), added) && st.counter == |added|
  }

  lemma SameSets(xs: seq<int>, ys: seq<int>)
    requires SameElements(xs, ys)
    ensures (set x | x in xs) == (set y | y in ys)
  {
    var s, t := set x | x in xs, set y | y in ys;
    forall x ensures x in s <==> x in t {
      assert x in s <==> x in xs;
    }
  }

  lemma StepCounts(st: State, e: Event_, p: Progress, added: seq<int>)
    requires Tracks(st, p) && Counts(st, added)
    ensures Counts(Step(st, e).0, if e.FunctionCallAdded? then added + [e.outputIndex] else added)
  {
    StepTracks(st, e, p);
  }

  lemma {:induction false} RunTracks(st: State, inputs: seq<Input>, p: Progress)
    requires Tracks(st, p)
    ensures Tracks(Run(st, inputs).state, AdvanceAll(p, Run(st, inputs).events))
    decreases |inputs|
  {
    if inputs != [] {
      match inputs[0]
      case Skipped => RunTracks(st, inputs[1..], p);
      case Got(event) =>
        var (st1, events, verdict) := Step(st, event);
        StepTracks(st, event, p);
        if verdict.GoOn? {
          RunTracks(st1, inputs[1..], AdvanceAll(p, events));
          AdvanceAllConcat(p, events, Run(st1, inputs[1..]).events);
        }
      case _ =>
    }
  }

  lemma AddedAppend(added: seq<int>, inputs: seq<Input>, event: Event_)
    requires inputs != [] && inputs[0] == Got(event) && !event.Terminal? && !event.ErrorEvent? && !event.BrokenEvent?
    ensures added + AddedIndices(inputs)
              == (if event.FunctionCallAdded? then added + [event.outputIndex] else added) + AddedIndices(inputs[1..])
  {
    if event.FunctionCallAdded? {
      Associative(added, [event.outputIndex], AddedIndices(inputs[1..]));
    } else {
      assert AddedIndices(inputs) == [] + AddedIndices(inputs[1..]) == AddedIndices(inputs[1..]);
    }
  }

  /** The run's records have the distinct keys among those added, its counter counts them all. */
  lemma {:induction false} RunCounts(st: State, inputs: seq<Input>, p: Progress, added: seq<int>)
    requires Tracks(st, p) && Counts(st, added)
    ensures Counts(Run(st, inputs).state, added + AddedIndices(inputs))
    decreases |inputs|
  {
    hide Tracks, Counts;
    NoneAdded(added);
    if inputs != [] {
      match inputs[0]
      case Skipped => RunCounts(st, inputs[1..], p, added);
      case Got(event) =>
        var (st1, events, verdict) := Step(st, event);
        StepTracks(st, event, p);
        StepCounts(st, event, p, added);
        if verdict.GoOn? {
          AddedAppend(added, inputs, event);
          RunCounts(st1, inputs[1..], AdvanceAll(p, events),
                    if event.FunctionCallAdded? then added + [event.outputIndex] else added);
        }
      case _ =>
    }
  }

  // ----- counting

  lemma {:induction false} DistinctIffCounted<T>(xs: seq<T>)
    ensures |set x | x in xs| <= |xs|
    ensures Distinct(xs) <==> |set x | x in xs| == |xs|
  {
    if xs != [] {
      var front := xs[..|xs| - 1];
      var last := xs[|xs| - 1];
      DistinctIffCounted(front);
      assert (set x | x in xs) == (set x | x in front) + {last};
      if last in front {
        assert last in (set x | x in front);
        assert (set x | x in front) + {last} == (set x | x in front);
        var j :| 0 <= j < |front| && front[j] == last;
        assert xs[j] == xs[|xs| - 1];
      } else {
        assert Distinct(xs) <==> Distinct(front) by {
          if Distinct(xs) {
            forall j, k | 0 <= j < k < |front| ensures front[j] != front[k] {
              assert xs[j] == front[j] && xs[k] == front[k];
            }
          }
        }
      }
    }
  }

  function UpTo(n: nat): (s: set<nat>)
    ensures forall b: nat :: b in s <==> b <= n
    ensures |s| == n + 1
  {
    if n == 0 then {0} else UpTo(n - 1) + {n}
  }

  lemma FullIffCounted(indices: seq<nat>, n: nat)
    requires Distinct(indices) && forall i :: i in indices ==> i <= n
    ensures (set i | i in indices) == UpTo(n) <==> |indices| == n + 1
  {
    var s := set i | i in indices;
    DistinctIffCounted(indices);
    assert s <= UpTo(n);
    if |s| == |UpTo(n)| {
      var missing := UpTo(n) - s;
      assert UpTo(n) == s + missing;
      assert |UpTo(n)| == |s| + |missing|;
      assert missing == {};
    }
  }

  /**
   * The stream is well formed exactly when it ends with an error frame or every function
   * call read has an output index of its own.
   */
  lemma StreamIsWellFormedIff(id: string, inputs: seq<Input>)
    ensures WellFormed(Stream(id, inputs)) <==> Run(INIT, inputs).failure.Some? || Distinct(AddedIndices(inputs))
  {
    hide AdvanceAll, Tracks, Counts, Distinct, AddedIndices, Run;
    var ran := Run(INIT, inputs);
    var pre := ChatStream.Preamble(id);
    var p := Streaming(map[0 := OpenText], 1);
    ChatWellFormed.PreambleOpensText(id);
    StartTracks();
    RunTracks(INIT, inputs, p);
    RunCounts(INIT, inputs, p, []);
    var q := AdvanceAll(p, ran.events);
    AdvanceAllConcat(Unstarted, pre, ran.events);
    AdvanceAllConcat(Unstarted, pre + ran.events, Closing(ran));
    match ran.failure
    case None =>
      NoneAdded(AddedIndices(inputs));
      ClosingIff(ran.state, q, AddedIndices(inputs));
    case Some(failure) =>
      AdvanceOne(q, ErrorFrame(failure));
      FailsWhileStreaming(ran.state, q, failure);
  }

  lemma StartTracks()
    ensures Tracks(INIT, Streaming(map[0 := OpenText], 1)) && Counts(INIT, [])
  {
  }

  lemma FailsWhileStreaming(st: State, p: Progress, failure: Failure)
    requires Tracks(st, p)
    ensures Advance(p, ErrorFrame(failure)) == Failed
  {
  }

  lemma ClosingIff(st: State, p: Progress, added: seq<int>)
    requires Tracks(st, p) && Counts(st, added)
    ensures AdvanceAll(p, Tail([0] + Blocks(st.calls), st.stop, st.usage)) == if Distinct(added) then Complete else Malformed
  {
    var indices := [0] + Blocks(st.calls);
    assert forall i :: i in Blocks(st.calls) ==> 1 <= i <= st.counter;
    assert Distinct(indices);
    TailCompletes(p.open, p.started, indices, st.stop, st.usage);
    assert p.open.Keys == UpTo(st.counter);
    FullIffCounted(indices, st.counter);
    SameSets(Keys(st.calls), added);
    DistinctIffCounted(Keys(st.calls));
    DistinctIffCounted(added);
  }

  /** Two function calls under one index: the first block is never stopped. */
  lemma RepeatedIndexLeavesABlockOpen(id: string)
    ensures !WellFormed(Stream(id, [Got(FunctionCallAdded(0, "call_1", "", "read")), Got(FunctionCallAdded(0, "call_2", "", "read"))]))
  {
    var inputs := [Got(FunctionCallAdded(0, "call_1", "", "read")), Got(FunctionCallAdded(0, "call_2", "", "read"))];
    assert inputs[1..][1..] == [];
    var added := AddedIndices(inputs);
    assert AddedIndices(inputs[1..]) == [0] + AddedIndices([]);
    assert added[0] == added[1];
    var (st1, _, _) := Step(INIT, inputs[0].event);
    var (st2, _, _) := Step(st1, inputs[1].event);
    assert Run(st2, []).failure.None?;
    assert Run(st1, inputs[1..]).failure == Run(st2, inputs[1..][1..]).failure;
    StreamIsWellFormedIff(id, inputs);
  }

  // ----- the last words

  /** An input the loop reads and goes on after. */
  predicate Reads(input: Input) {
    match input
    case Skipped => true
    case Got(event) => !event.Terminal? && !event.ErrorEvent? && !event.BrokenEvent?
    case _ => false
  }

  /** How far the loop reads. */
  function ReadUpTo(inputs: seq<Input>): (k: nat)
    ensures k <= |inputs| && (k < |inputs| ==> !Reads(inputs[k])) && forall j :: 0 <= j < k ==> Reads(inputs[j])
  {
    if inputs == [] || !Reads(inputs[0]) then 0 else 1 + ReadUpTo(inputs[1..])
  }

  function MessageOr(message: string, otherwise: string): string {
    if message == "" then otherwise else message
  }

  /** The failure the first input the loop cannot read stands for. */
  function FailureAt(input: Input): Option<Failure> {
    match input
    case Got(Terminal(response)) =>
      if response.status.FailedStatus? then Some(UpstreamError(502, MessageOr(response.message, "upstream response failed"))) else None
    case Got(ErrorEvent(message)) => Some(UpstreamError(502, MessageOr(message, "upstream stream error")))
    case Got(BrokenEvent) => Some(Unexpected)
    case Raises(ProviderCancelled) => Some(CancelledByClient)
    case Raises(Provider(status, message)) => Some(UpstreamError(status, message))
    case Raises(Api(status, message)) => Some(UpstreamError(status, message))
    case Raises(Other) => Some(Unexpected)
    case _ => None
  }

  lemma {:induction false} RunMeans(st: State, inputs: seq<Input>)
    ensures var ran, k := Run(st, inputs), ReadUpTo(inputs);
            && ran.failure == (if k == |inputs| then None else FailureAt(inputs[k]))
            && (st.calls != [] ==> ran.state.calls != [])
            && (ran.failure.None? ==>
                  if k < |inputs| && inputs[k].Got? && inputs[k].event.Terminal? then
                    var response := inputs[k].event.response;
                    && ran.state.usage == response.usage && ran.output == response.output
                    && (ran.state.stop == MaxTokens <==> response.status == IncompleteStatus("max_output_tokens"))
                    && (ran.state.stop == ToolUse <==>
                          response.status != IncompleteStatus("max_output_tokens") && (st.calls != [] || AddedIndices(inputs) != []))
                  else ran.state.usage == st.usage && ran.state.stop == st.stop && ran.output == [])
    decreases |inputs|
  {
    hide Step;
    if inputs != [] && Reads(inputs[0]) {
      match inputs[0]
      case Skipped => RunMeans(st, inputs[1..]);
      case Got(event) =>
        StepGoesOn(st, event);
        RunMeans(Step(st, event).0, inputs[1..]);
    } else if inputs != [] && inputs[0].Got? {
      StepEnds(st, inputs[0].event);
    }
  }

  lemma StepGoesOn(st: State, e: Event_)
    requires Reads(Got(e))
    ensures Step(st, e).2 == GoOn && Step(st, e).0.stop == st.stop && Step(st, e).0.usage == st.usage
    ensures Step(st, e).0.calls != [] <==> st.calls != [] || e.FunctionCallAdded?
  {
    hide Json.Loads;
  }

  lemma StepEnds(st: State, e: Event_)
    requires !Reads(Got(e))
    ensures match FailureAt(Got(e))
            case Some(failure) => Step(st, e).2 == Fail(failure)
            case None =>
              && e.Terminal? && Step(st, e).2 == Finish(e.response.output)
              && Step(st, e).0.usage == e.response.usage
              && (Step(st, e).0.stop == MaxTokens <==> e.response.status == IncompleteStatus("max_output_tokens"))
              && (Step(st, e).0.stop == ToolUse <==> e.response.status != IncompleteStatus("max_output_tokens") && st.calls != [])
    ensures Step(st, e).0.calls == st.calls && Step(st, e).1 == []
  {
  }

  /**
   * The last words of a stream: a failure is its last event; otherwise the event before the stop
   * carries the usage of the terminal response and says whether the output limit cut it off or a
   * function call was announced; without a terminal response it ends the turn with zeros. What
   * the terminal response holds goes to the reasoning cache.
   */
  lemma LastWords(id: string, inputs: seq<Input>)
    ensures var events, n, k := Stream(id, inputs), |Stream(id, inputs)|, ReadUpTo(inputs);
            var failure := if k == |inputs| then None else FailureAt(inputs[k]);
            && n > 2
            && if failure.Some? then events[n - 1] == ErrorFrame(failure.value)
               else
                 && events[n - 1] == MessageStop && events[n - 2].MessageDelta?
                 && if k < |inputs| && inputs[k].Got? then
                      var response := inputs[k].event.response;
                      && events[n - 2].usage == response.usage && Run(INIT, inputs).output == response.output
                      && (events[n - 2].stop == MaxTokens <==> response.status == IncompleteStatus("max_output_tokens"))
                      && (events[n - 2].stop == ToolUse <==>
                            response.status != IncompleteStatus("max_output_tokens") && AddedIndices(inputs) != [])
                    else events[n - 2] == MessageDelta(EndTurn, Usage(0, 0, None)) && Run(INIT, inputs).output == []
  {
    hide Run, AddedIndices;
    RunMeans(INIT, inputs);
    var ran := Run(INIT, inputs);
    assert Stream(id, inputs) == (ChatStream.Preamble(id) + ran.events) + Closing(ran);
  }
}
