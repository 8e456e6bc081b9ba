/**
 * Every output of the chat streaming converter is a well-formed Anthropic
 * stream, whatever the upstream sends and wherever it fails.
 */
module ChatWellFormed {
  import opened Common
  import opened Events
  import opened ChatStream

  /** Block `b` belongs to the started call at position `k`. */
  predicate Owns(calls: seq<Call>, k: nat, b: nat) {
    k < |calls| && calls[k].block == Some(b)
  }

  ghost predicate HasOwner(calls: seq<Call>, b: nat) {
    exists k: nat :: Owns(calls, k, b)
  }

  /** The converter's state describes exactly the blocks the client has open. */
  ghost predicate Tracks(st: State, p: Progress) {
    && p.Streaming? && p.started == st.counter + 1
    && (forall b: nat :: b in p.open <==> b <= st.counter)
    && p.open[0] == OpenText
    && (forall k: nat, b: nat :: Owns(st.calls, k, b) ==> 1 <= b <= st.counter && p.open[b] == OpenTool(st.calls[k].sent))
    && (forall j: nat, k: nat, b: nat :: Owns(st.calls, j, b) && Owns(st.calls, k, b) ==> j == k)
    && (forall b: nat :: 1 <= b <= st.counter ==> HasOwner(st.calls, b))
    && (forall k: nat :: k < |st.calls| && st.calls[k].block.None? ==> !st.calls[k].sent)
  }

  /** Replacing a call that keeps its block, or that has none, keeps every other owner. */
  lemma OwnersAfterPut(calls: seq<Call>, k: nat, call: Call, j: nat, b: nat)
    requires k <= |calls|
    ensures Owns(Put(calls, k, call), j, b) <==> (if j == k then call.block == Some(b) else Owns(calls, j, b))
  {
  }

  lemma ArgumentsSend(call: Call, arguments: Option<string>)
    ensures var (taken, sends) := TakeArguments(call, arguments);
            && taken.block == call.block
            && if taken.sent == call.sent then sends == []
               else taken.block.Some? && taken.sent && exists json :: sends == [InputDelta(taken.block.value, json)]
  {
    hide Json.Loads;
  }

  lemma UnstartedUnsent(st: State, p: Progress)
    requires Tracks(st, p)
    ensures forall k :: 0 <= k < |st.calls| ==>
              st.calls[k].block != Some(st.counter + 1) && (st.calls[k].block.None? ==> !st.calls[k].sent)
  {
    forall k | 0 <= k < |st.calls| ensures st.calls[k].block != Some(st.counter + 1) {
      assert st.calls[k].block.Some? ==> Owns(st.calls, k, st.calls[k].block.value);
    }
  }

  lemma ToolStepTracks(st: State, d: ToolDelta, p: Progress)
    requires d.ToolDelta? && Tracks(st, p)
    ensures Tracks(ToolStep(st, d).0, AdvanceAll(p, ToolStep(st, d).1))
  {
    hide Tracks, TakeArguments, AdvanceAll;
    var k := Find(st.calls, d.index);
    var named := Named(st.calls, d);
    var call := if Starts(named) then named.(block := Some(st.counter + 1)) else named;
    var mid := State(Put(st.calls, k, call), if Starts(named) then st.counter + 1 else st.counter, st.stop, st.usage);
    var starts := if Starts(named) then [BlockStart(st.counter + 1, ToolBlock(named.id, named.name))] else [];
    var q := AdvanceAll(p, starts);
    assert Tracks(mid, q) by {
      AdvanceOne(p, BlockStart(st.counter + 1, ToolBlock(named.id, named.name)));
      UnstartedUnsent(st, p);
      StartTracks(st, k, call, p, q);
    }
    var (taken, sends) := TakeArguments(call, d.arguments);
    ArgumentsSend(call, d.arguments);
    assert !Starts(named) ==> starts + sends == sends;
    assert ToolStep(st, d) == (mid.(calls := Put(st.calls, k, taken)), starts + sends);
    AdvanceAllConcat(p, starts, sends);
    SendTracks(mid, k, taken, q, AdvanceAll(q, sends), sends);
    assert Put(mid.calls, k, taken) == Put(st.calls, k, taken);
  }

  lemma StartTracks(st: State, k: nat, call: Call, p: Progress, q: Progress)
    requires Tracks(st, p) && k <= |st.calls|
    requires var old_ := if k < |st.calls| then st.calls[k] else Call(call.key, "", "", "", false, None);
             && call.sent == old_.sent
             && (old_.block.Some? ==> call.block == old_.block)
             && (old_.block.None? ==> call.block in {None, Some(st.counter + 1)})
             && (old_.block.None? && call.block.Some? ==> !call.sent)
             && q == if call.block == old_.block then p
                     else Advance(p, BlockStart(st.counter + 1, ToolBlock(call.id, call.name)))
    ensures var started := call.block == Some(st.counter + 1);
            Tracks(State(Put(st.calls, k, call), if started then st.counter + 1 else st.counter, st.stop, st.usage), q)
  {
    var calls := Put(st.calls, k, call);
    if k < |st.calls| && st.calls[k].block.Some? {
      assert Owns(st.calls, k, st.calls[k].block.value);
    }
    forall j: nat, b: nat ensures Owns(calls, j, b) <==> (if j == k then call.block == Some(b) else Owns(st.calls, j, b)) {
      OwnersAfterPut(st.calls, k, call, j, b);
    }
    var counter := if call.block == Some(st.counter + 1) then st.counter + 1 else st.counter;
    forall b: nat | 1 <= b <= counter ensures HasOwner(calls, b) {
      if b <= st.counter {
        assert HasOwner(st.calls, b);
        var j: nat :| Owns(st.calls, j, b);
        assert Owns(calls, j, b);
      } else {
        assert Owns(calls, k, b);
      }
    }
  }

  lemma SendTracks(st: State, k: nat, taken: Call, p: Progress, q: Progress, sends: seq<Event>)
    requires Tracks(st, p) && k < |st.calls|
    requires taken.block == st.calls[k].block
    requires if taken.sent == st.calls[k].sent then sends == []
             else taken.block.Some? && taken.sent && exists json :: sends == [InputDelta(taken.block.value, json)]
    requires q == AdvanceAll(p, sends)
    ensures Tracks(st.(calls := Put(st.calls, k, taken)), q)
  {
    var calls := Put(st.calls, k, taken);
    forall j: nat, b: nat ensures Owns(calls, j, b) <==> Owns(st.calls, j, b) {
      OwnersAfterPut(st.calls, k, taken, j, b);
    }
    forall b: nat | HasOwner(st.calls, b) ensures HasOwner(calls, b) {
      var j: nat :| Owns(st.calls, j, b);
      assert Owns(calls, j, b);
    }
    if taken.sent != st.calls[k].sent {
      assert Owns(st.calls, k, taken.block.value);
      assert q == AdvanceAll(Advance(p, sends[0]), sends[1..]) == Advance(p, sends[0]);
    }
  }

  lemma {:induction false} ToolStepsTrack(st: State, tools: seq<ToolDelta>, p: Progress)
    requires Tracks(st, p)
    ensures Tracks(ToolSteps(st, tools).state, AdvanceAll(p, ToolSteps(st, tools).events))
    decreases |tools|
  {
    if tools != [] && tools[0].ToolDelta? {
      var (st1, events) := ToolStep(st, tools[0]);
      ToolStepTracks(st, tools[0], p);
      ToolStepsTrack(st1, tools[1..], AdvanceAll(p, events));
      AdvanceAllConcat(p, events, ToolSteps(st1, tools[1..]).events);
    }
  }

  lemma ChunkStepTracks(st: State, usage: Option<Usage>, choice: Option<Choice>, p: Progress)
    requires Tracks(st, p)
    ensures var s := ChunkStep(st, usage, choice); Tracks(s.state, AdvanceAll(p, s.events))
  {
    hide Tracks, ToolSteps, AdvanceAll;
    var st1 := st.(usage := usage.GetOr(st.usage));
    SameCallsTrack(st, st1, p);
    if choice.Some? && choice.value.delta.Some? {
      var text := TextEvents(choice.value.delta);
      TextTracks(st, p, choice.value.delta.value.content.GetOr(""));
      ToolStepsTrack(st1, choice.value.delta.value.tools, p);
      AdvanceAllConcat(p, text, ToolSteps(st1, choice.value.delta.value.tools).events);
      SameCallsTrack(ToolSteps(st1, choice.value.delta.value.tools).state, ChunkStep(st, usage, choice).state,
                     AdvanceAll(p, ChunkStep(st, usage, choice).events));
    }
  }

  lemma TextTracks(st: State, p: Progress, text: string)
    requires Tracks(st, p)
    ensures AdvanceAll(p, []) == p && AdvanceAll(p, [TextDelta(0, text)]) == p
  {
    AdvanceOne(p, TextDelta(0, text));
  }

  lemma SameCallsTrack(st: State, st1: State, p: Progress)
    requires Tracks(st, p) && st1.calls == st.calls && st1.counter == st.counter
    ensures Tracks(st1, p) && AdvanceAll(p, []) == p
  {
  }

  lemma {:induction false} RunTracks(st: State, inputs: seq<Input>, p: Progress)
    requires Tracks(st, p)
    ensures Tracks(Run(st, inputs).state, AdvanceAll(p, Run(st, inputs).events))
    decreases |inputs|
  {
    if inputs != [] {
      match inputs[0]
      case Skipped => RunTracks(st, inputs[1..], p);
      case Chunk(usage, choice) =>
        var s := ChunkStep(st, usage, choice);
        ChunkStepTracks(st, usage, choice, p);
        if !s.broke {
          RunTracks(s.state, inputs[1..], AdvanceAll(p, s.events));
          AdvanceAllConcat(p, s.events, Run(s.state, inputs[1..]).events);
        }
      case _ =>
    }
  }

  /** The blocks stopped at the end are those of the started calls, each once. */
  lemma {:induction false} BlocksAreOwned(calls: seq<Call>)
    requires forall j: nat, k: nat, b: nat :: Owns(calls, j, b) && Owns(calls, k, b) ==> j == k
    ensures forall b :: b in Blocks(calls) <==> HasOwner(calls, b)
    ensures forall j, k :: 0 <= j < k < |Blocks(calls)| ==> Blocks(calls)[j] != Blocks(calls)[k]
  {
    if calls != [] {
      var rest := calls[1..];
      forall k: nat, b: nat ensures Owns(rest, k, b) <==> Owns(calls, k + 1, b) {
      }
      BlocksAreOwned(rest);
      forall b: nat ensures b in Blocks(calls) <==> HasOwner(calls, b) {
        if k: nat :| Owns(calls, k, b) {
          if k > 0 { assert Owns(rest, k - 1, b); }
        }
        if b in Blocks(rest) {
          var k: nat :| Owns(rest, k, b);
          assert Owns(calls, k + 1, b);
        } else if b in Blocks(calls) {
          assert Owns(calls, 0, b);
        }
      }
      if calls[0].block.Some? {
        var b := calls[0].block.value;
        assert b !in Blocks(rest) by {
          if k: nat :| Owns(rest, k, b) {
            assert Owns(calls, k + 1, b) && Owns(calls, 0, b);
          }
        }
      }
    }
  }

  lemma ClosingCompletes(st: State, p: Progress)
    requires Tracks(st, p)
    ensures AdvanceAll(p, Tail([0] + Blocks(st.calls), st.stop, st.usage)) == Complete
  {
    BlocksAreOwned(st.calls);
    var indices := [0] + Blocks(st.calls);
    assert 0 !in Blocks(st.calls);
    forall b: nat ensures b in indices <==> b in p.open {
      if b in Blocks(st.calls) {
        assert HasOwner(st.calls, b);
        var k: nat :| Owns(st.calls, k, b);
      }
    }
    assert p.open.Keys == (set i | i in indices);
    TailCompletes(p.open, p.started, indices, st.stop, st.usage);
  }

  /**
   * The converter's output is well formed for every upstream line sequence and
   * every point of failure; it ends with `message_stop` exactly when nothing
   * but a transport break, [DONE], or a client gone ended the upstream.
   */
  lemma StreamIsWellFormed(id: string, inputs: seq<Input>)
    ensures WellFormed(Stream(id, inputs))
    ensures AdvanceAll(Unstarted, Stream(id, inputs)) == Complete <==> Run(INIT, inputs).failure.None?
  {
    var ran := Run(INIT, inputs);
    var pre := Preamble(id);
    var p := Streaming(map[0 := OpenText], 1);
    PreambleOpensText(id);
    RunTracks(INIT, inputs, p);
    var q := AdvanceAll(p, ran.events);
    AdvanceAllConcat(Unstarted, pre, ran.events);
    AdvanceAllConcat(Unstarted, pre + ran.events, Closing(ran));
    match ran.failure
    case None => ClosingCompletes(ran.state, q);
    case Some(failure) =>
      assert Closing(ran)[1..] == [];
      assert AdvanceAll(q, Closing(ran)) == AdvanceAll(Advance(q, ErrorFrame(failure)), []);
  }

  lemma PreambleOpensText(id: string)
    ensures AdvanceAll(Unstarted, Preamble(id)) == Streaming(map[0 := OpenText], 1)
  {
    var pre := Preamble(id);
    assert pre[1..] == [BlockStart(0, TextBlock), Ping] && pre[1..][1..] == [Ping] && pre[1..][1..][1..] == [];
    var p1 := Advance(Unstarted, pre[0]);
    var p2 := Advance(p1, pre[1]);
    var p3 := Advance(p2, Ping);
    assert AdvanceAll(p2, [Ping]) == AdvanceAll(p3, []);
    assert AdvanceAll(p1, pre[1..]) == AdvanceAll(p2, [Ping]);
  }

  // ----- the last words

  /** An input the loop reads and goes on after. */
  predicate Reads(input: Input) {
    match input
    case Skipped => true
    case Chunk(_, choice) => choice.None? || (choice.value.delta.Some? && BrokenTool !in choice.value.delta.value.tools)
    case _ => false
  }

  /** How far the loop reads. */
  function ReadUpTo(inputs: seq<Input>): (k: nat)
    ensures k <= |inputs| && (k < |inputs| ==> !Reads(inputs[k])) && forall j :: 0 <= j < k ==> Reads(inputs[j])
  {
    if inputs == [] || !Reads(inputs[0]) then 0 else 1 + ReadUpTo(inputs[1..])
  }

  /** The last non-empty finish reason among the inputs read. */
  function LastFinish(inputs: seq<Input>, before: string): string {
    if inputs == [] || !Reads(inputs[0]) then before
    else if inputs[0].Chunk? && inputs[0].choice.Some? && inputs[0].choice.value.finish != "" then
      LastFinish(inputs[1..], inputs[0].choice.value.finish)
    else LastFinish(inputs[1..], before)
  }

  /** The last usage among the inputs read. */
  function LastUsage(inputs: seq<Input>, before: Usage): Usage {
    if inputs == [] || !Reads(inputs[0]) then before
    else if inputs[0].Chunk? && inputs[0].usage.Some? then LastUsage(inputs[1..], inputs[0].usage.value)
    else LastUsage(inputs[1..], before)
  }

  /** A cut-off answer is announced as such, calls as calls, and everything else as an ended turn. */
  predicate Announces(stop: StopReason, finish: string) {
    && (stop == MaxTokens <==> finish == "length")
    && (stop == ToolUse <==> finish == "tool_calls" || finish == "function_call")
  }

  lemma {:induction false} StepsBreak(st: State, tools: seq<ToolDelta>)
    ensures ToolSteps(st, tools).broke <==> BrokenTool in tools
    ensures ToolSteps(st, tools).state.stop == st.stop && ToolSteps(st, tools).state.usage == st.usage
    decreases |tools|
  {
    if tools != [] && tools[0].ToolDelta? {
      StepsBreak(ToolStep(st, tools[0]).0, tools[1..]);
      assert tools == [tools[0]] + tools[1..];
    }
  }

  /**
   * What the loop ends with: the last finish and the last usage it read, or the failure that the
   * first input it cannot read stands for.
   */
  lemma {:induction false} RunMeans(st: State, before: string, inputs: seq<Input>)
    requires Announces(st.stop, before)
    ensures var ran, k := Run(st, inputs), ReadUpTo(inputs);
            && (ran.failure.None? ==> Announces(ran.state.stop, LastFinish(inputs, before)) && ran.state.usage == LastUsage(inputs, st.usage))
            && ran.failure == (if k == |inputs| then None else
                               match inputs[k]
                               case Chunk(_, _) => Some(Unexpected)
                               case Raises(ProviderCancelled) => Some(CancelledByClient)
                               case Raises(Provider(status, message)) => Some(UpstreamError(status, message))
                               case Raises(Api(status, message)) => Some(UpstreamError(status, message))
                               case Raises(Other) => Some(Unexpected)
                               case _ => None)
    decreases |inputs|
  {
    hide ToolSteps;
    if inputs != [] && Reads(inputs[0]) {
      match inputs[0]
      case Skipped => RunMeans(st, before, inputs[1..]);
      case Chunk(usage, choice) =>
        var st1 := ChunkStep(st, usage, choice).state;
        ChunkMeans(st, before, usage, choice);
        RunMeans(st1, if choice.Some? && choice.value.finish != "" then choice.value.finish else before, inputs[1..]);
    } else if inputs != [] && inputs[0].Chunk? {
      ChunkMeans(st, before, inputs[0].usage, inputs[0].choice);
    }
  }

  lemma ChunkMeans(st: State, before: string, usage: Option<Usage>, choice: Option<Choice>)
    requires Announces(st.stop, before)
    ensures var s := ChunkStep(st, usage, choice);
            && (s.broke <==> !Reads(Chunk(usage, choice)))
            && (!s.broke ==>
                  && Announces(s.state.stop, if choice.Some? && choice.value.finish != "" then choice.value.finish else before)
                  && s.state.usage == if usage.Some? then usage.value else st.usage)
  {
    hide ToolSteps;
    if choice.Some? && choice.value.delta.Some? {
      StepsBreak(st.(usage := usage.GetOr(st.usage)), choice.value.delta.value.tools);
    }
  }

  /**
   * The last words of a stream: a failure is its last event; otherwise the event before the stop
   * announces the last finish the upstream sent and carries the last usage, zeros without one.
   */
  lemma LastWords(id: string, inputs: seq<Input>)
    ensures var events, n := Stream(id, inputs), |Stream(id, inputs)|;
            && n > 2
            && match Run(INIT, inputs).failure
               case Some(failure) => events[n - 1] == ErrorFrame(failure)
               case None =>
                 && events[n - 1] == MessageStop
                 && events[n - 2].MessageDelta? && Announces(events[n - 2].stop, LastFinish(inputs, ""))
                 && events[n - 2].usage == LastUsage(inputs, Usage(0, 0, None))
  {
    hide Run;
    RunMeans(INIT, "", inputs);
    var ran := Run(INIT, inputs);
    assert Stream(id, inputs) == (Preamble(id) + ran.events) + Closing(ran);
  }
}
