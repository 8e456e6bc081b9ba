/**
 * The two wrappers around a converter's stream: the keepalive, which fills
 * silences with pings, and the recorder, which remembers a finished message.
 * Neither loses, repeats or reorders a frame.
 */
module Relays {
  import opened Common
  import opened Events
  import opened Assembler
  import opened OrderedStore
  import opened ThreadStore
  import ChatStream
  import ChatWellFormed
  import ResponsesStream

  // ----- keepalive

  datatype SseFrame = PingFrame | Payload(text: string)

  /** What one wait for the next frame meets; `closed` says that the client leaves at the yield after it. */
  datatype Wait = Silence(closed: bool) | Arrival(closed: bool) | ClosedWhileWaiting

  /** How the relay ends: with the source, with the source's error, or from the outside. */
  datatype Ending = SourceEnded | SourceFailed | ClosedOutside

  function ErasePings(frames: seq<SseFrame>): seq<SseFrame> {
    if frames == [] then []
    else (if frames[0].PingFrame? then [] else [frames[0]]) + ErasePings(frames[1..])
  }

  lemma {:induction false} ErasePingsConcat(a: seq<SseFrame>, b: seq<SseFrame>)
    ensures ErasePings(a + b) == ErasePings(a) + ErasePings(b)
  {
    if a == [] {
      assert a + b == b;
    } else {
      assert (a + b)[1..] == a[1..] + b;
      ErasePingsConcat(a[1..], b);
    }
  }

  lemma ErasePush(frames: seq<SseFrame>, frame: SseFrame)
    ensures ErasePings(frames + [frame]) == ErasePings(frames) + (if frame.PingFrame? then [] else [frame])
  {
    ErasePingsConcat(frames, [frame]);
  }

  /**
   * Relay a source of frames. `asked` counts the steps taken on the source: a silence never
   * abandons a step, it is awaited again, so at most one is outstanding.
   */
  method WithKeepalive(source: seq<SseFrame>, sourceFails: bool, waits: seq<Wait>)
    returns (out: seq<SseFrame>, ending: Ending, ghost passed: nat, ghost pings: nat, ghost asked: nat)
    ensures passed <= |source|
    ensures ErasePings(out) == ErasePings(source[..passed])
    ensures |out| == passed + pings
    ensures passed <= asked <= passed + 1
    ensures ending == SourceEnded ==> passed == |source| && !sourceFails
    ensures ending == SourceFailed ==> passed == |source| && sourceFails
    ensures (forall k :: 0 <= k < |waits| ==> waits[k].Arrival? && !waits[k].closed) && |waits| > |source| ==>
              out == source && !ending.ClosedOutside?
  {
    hide ErasePings;
    out, ending := [], ClosedOutside;
    passed, pings, asked := 0, 0, 0;
    var next := 0;
    var pending := false;
    var i := 0;
    while i < |waits|
      invariant 0 <= i <= |waits| && next == passed <= |source|
      invariant |out| == passed + pings
      invariant ErasePings(out) == ErasePings(source[..passed])
      invariant asked == if pending then passed + 1 else passed
      invariant (forall k :: 0 <= k < i ==> waits[k].Arrival?) ==> out == source[..passed] && passed == i
    {
      if !pending {
        pending := true;
        asked := asked + 1;
      }
      match waits[i] {
        case ClosedWhileWaiting =>
          return;
        case Silence(closed) =>
          ErasePush(out, PingFrame);
          out, pings := out + [PingFrame], pings + 1;
          if closed {
            return;
          }
        case Arrival(closed) =>
          pending := false;
          if next == |source| {
            ending := if sourceFails then SourceFailed else SourceEnded;
            return;
          }
          assert source[..passed + 1] == source[..passed] + [source[passed]];
          ErasePush(out, source[passed]);
          ErasePush(source[..passed], source[passed]);
          out := out + [source[next]];
          next, passed := next + 1, passed + 1;
          if closed {
            return;
          }
      }
      i := i + 1;
    }
  }

  // ----- recording

  function AfterFrame(a: Assembly, frame: Frame): Assembly {
    if frame.Emitted? then Take(a, frame.event) else a
  }

  /** What one frame completes: the message, when it is `message_stop` and an id was seen. */
  function RecordedAt(a: Assembly, frame: Frame): seq<(string, seq<Content>)> {
    if frame == Emitted(MessageStop) && a.id.Some? then [(a.id.value, ContentOf(a.blocks))] else []
  }

  /** What is recorded along a stretch of frames. */
  function Recordings(a: Assembly, frames: seq<Frame>): seq<(string, seq<Content>)>
    decreases |frames|
  {
    if frames == [] then []
    else RecordedAt(AfterFrame(a, frames[0]), frames[0]) + Recordings(AfterFrame(a, frames[0]), frames[1..])
  }

  function RecordEntries(recordings: seq<(string, seq<Content>)>, request: Request, now: real): Log {
    seq(|recordings|, k requires 0 <= k < |recordings| =>
      Entry(recordings[k].0, now, HeldOf(request, recordings[k].1)))
  }

  method RelayFrame(store: ThreadStore, assembler: MessageAssembler, request: Request, frame: Frame, now: real)
    requires store.Valid() && store.at <= now
    modifies store, assembler
    ensures store.Valid() && store.at <= now
    ensures assembler.View() == AfterFrame(old(assembler.View()), frame)
    ensures store.log == old(store.log) + RecordEntries(RecordedAt(assembler.View(), frame), request, now)
  {
    hide Take, ContentOf, HeldOf;
    var complete := assembler.Feed(frame);
    if complete && assembler.messageId.Some? {
      store.Record(assembler.messageId.value, request, assembler.Content(), now);
    }
  }

  lemma RecordEntriesConcat(xs: seq<(string, seq<Content>)>, ys: seq<(string, seq<Content>)>, request: Request, now: real)
    ensures RecordEntries(xs + ys, request, now) == RecordEntries(xs, request, now) + RecordEntries(ys, request, now)
  {
  }

  lemma {:induction false} AppendFrame(a: Assembly, frames: seq<Frame>, i: nat)
    requires i < |frames|
    ensures Recordings(a, frames[..i + 1])
              == Recordings(a, frames[..i]) + RecordedAt(Assembled(a, frames[..i + 1]), frames[i])
    ensures Assembled(a, frames[..i + 1]) == AfterFrame(Assembled(a, frames[..i]), frames[i])
    decreases i
  {
    if i == 0 {
      assert frames[..1][1..] == [] && frames[..0] == [];
      assert Assembled(a, frames[..1]) == Assembled(AfterFrame(a, frames[0]), []);
    } else {
      AppendFrame(AfterFrame(a, frames[0]), frames[1..], i - 1);
      assert frames[..i + 1][1..] == frames[1..][..i];
      assert frames[..i][1..] == frames[1..][..i - 1];
    }
  }

  /** One more frame: the log after it, written in the two ways the loop needs. */
  lemma LogStep(log: Log, frames: seq<Frame>, i: nat, request: Request, now: real)
    requires i < |frames|
    ensures frames[..i + 1] == frames[..i] + [frames[i]]
    ensures log + RecordEntries(Recordings(NOTHING, frames[..i + 1]), request, now)
              == (log + RecordEntries(Recordings(NOTHING, frames[..i]), request, now))
                 + RecordEntries(RecordedAt(Assembled(NOTHING, frames[..i + 1]), frames[i]), request, now)
    ensures Assembled(NOTHING, frames[..i + 1]) == AfterFrame(Assembled(NOTHING, frames[..i]), frames[i])
  {
    AppendFrame(NOTHING, frames, i);
    RecordEntriesConcat(Recordings(NOTHING, frames[..i]), RecordedAt(Assembled(NOTHING, frames[..i + 1]), frames[i]), request, now);
  }

  function Assembled(a: Assembly, frames: seq<Frame>): Assembly
    decreases |frames|
  {
    if frames == [] then a else Assembled(AfterFrame(a, frames[0]), frames[1..])
  }

  /** Relay frames unchanged until the client leaves after `taken` of them, recording finished messages. */
  method RecordStream(store: ThreadStore, request: Request, frames: seq<Frame>, taken: nat, now: real)
    returns (out: seq<Frame>)
    requires store.Valid() && store.at <= now && taken <= |frames|
    modifies store
    ensures store.Valid()
    ensures out == frames[..taken]
    ensures store.log == old(store.log) + RecordEntries(Recordings(NOTHING, frames[..taken]), request, now)
  {
    out := [];
    var assembler := new MessageAssembler();
    ghost var before := store.log;
    var i := 0;
    while i < taken
      invariant 0 <= i <= taken
      invariant store.Valid() && store.at <= now
      invariant out == frames[..i]
      invariant assembler.View() == Assembled(NOTHING, frames[..i])
      invariant store.log == before + RecordEntries(Recordings(NOTHING, frames[..i]), request, now)
      modifies store, assembler
    {
      LogStep(before, frames, i, request, now);
      RelayFrame(store, assembler, request, frames[i], now);
      out := out + [frames[i]];
      i := i + 1;
    }
  }

  function Emit(events: seq<Event>): seq<Frame> {
    seq(|events|, k requires 0 <= k < |events| => Emitted(events[k]))
  }

  /** Along a stream that is not malformed, a message is recorded exactly when it is complete, and once. */
  lemma {:induction false} RecordedOnce(p: Progress, a: Assembly, events: seq<Event>)
    requires p.Streaming? || p.Ending?
    requires AdvanceAll(p, events) != Malformed && a.id.Some?
    ensures Recordings(a, Emit(events)) ==
              if AdvanceAll(p, events) == Complete then [(a.id.value, ContentOf(TakeAll(a, events).blocks))] else []
    decreases |events|
  {
    hide ContentOf;
    if events != [] {
      var q := Advance(p, events[0]);
      var a1 := Take(a, events[0]);
      assert Emit(events)[1..] == Emit(events[1..]);
      MalformedStays(events[1..]);
      if q.Streaming? || q.Ending? {
        RecordedOnce(q, a1, events[1..]);
      } else {
        NothingAfter(q, events[1..]);
        assert Emit(events[1..]) == [];
      }
    }
  }

  lemma {:induction false} MalformedStays(events: seq<Event>)
    ensures AdvanceAll(Malformed, events) == Malformed
    decreases |events|
  {
    if events != [] {
      MalformedStays(events[1..]);
    }
  }

  lemma NothingAfter(p: Progress, events: seq<Event>)
    requires p == Complete || p == Failed
    ensures events != [] ==> AdvanceAll(p, events) == Malformed
  {
    if events != [] {
      MalformedStays(events[1..]);
    }
  }

  /**
   * A recorded stream of the chat converter: whatever the upstream did and wherever the
   * client left, the message is recorded exactly when its whole stream went out and ended
   * with `message_stop`, under its id, with the assembled content.
   */
  lemma ChatStreamRecordedWhenComplete(id: string, inputs: seq<ChatStream.Input>, taken: nat)
    requires taken <= |ChatStream.Stream(id, inputs)|
    ensures var events := ChatStream.Stream(id, inputs);
            Recordings(NOTHING, Emit(events[..taken])) ==
              if taken == |events| && ChatStream.Run(ChatStream.INIT, inputs).failure.None?
              then [(id, ContentOf(TakeAll(NOTHING, events).blocks))] else []
  {
    var events := ChatStream.Stream(id, inputs);
    ChatWellFormed.StreamIsWellFormed(id, inputs);
    PrefixSound(Unstarted, events, taken);
    if taken > 0 {
      var seen := events[..taken];
      assert seen[0] == MessageStart(id);
      var a := Take(NOTHING, seen[0]);
      assert Emit(seen)[1..] == Emit(seen[1..]);
      RecordedOnce(Advance(Unstarted, seen[0]), a, seen[1..]);
    }
    assert taken == |events| ==> events[..taken] == events;
  }

  /** A proper beginning of a stream that is not malformed is neither malformed nor finished. */
  lemma PrefixSound(p: Progress, events: seq<Event>, k: nat)
    requires k <= |events| && AdvanceAll(p, events) != Malformed
    ensures AdvanceAll(p, events[..k]) != Malformed
    ensures k < |events| ==> AdvanceAll(p, events[..k]) != Complete
  {
    assert events == events[..k] + events[k..];
    AdvanceAllConcat(p, events[..k], events[k..]);
    MalformedStays(events[k..]);
    NothingAfter(Complete, events[k..]);
  }

  lemma {:induction false} NothingRecorded(a: Assembly, events: seq<Event>)
    requires MessageStop !in events
    ensures Recordings(a, Emit(events)) == []
    decreases |events|
  {
    if events != [] {
      assert Emit(events)[1..] == Emit(events[1..]);
      NothingRecorded(Take(a, events[0]), events[1..]);
    }
  }

  /** The stop is the last event: it records what was assembled, under the id of the start. */
  lemma {:induction false} RecordedByLast(a: Assembly, events: seq<Event>)
    requires MessageStop !in events && a.id.Some? && forall e :: e in events ==> !e.MessageStart?
    ensures Recordings(a, Emit(events + [MessageStop])) == [(a.id.value, ContentOf(TakeAll(a, events + [MessageStop]).blocks))]
    decreases |events|
  {
    var all := events + [MessageStop];
    if events == [] {
      assert all == [MessageStop] && all[1..] == [] && Emit(all)[1..] == [];
      assert TakeAll(a, all) == TakeAll(Take(a, MessageStop), all[1..]) == a;
      assert Recordings(a, Emit(all)) == RecordedAt(a, Emitted(MessageStop)) + Recordings(a, Emit(all)[1..]);
    } else {
      assert all[1..] == events[1..] + [MessageStop] && Emit(all)[1..] == Emit(all[1..]);
      RecordedByLast(Take(a, events[0]), events[1..]);
    }
  }

  predicate IsDelta(e: Event) {
    e.TextDelta? || e.BlockStart? || e.InputDelta?
  }

  lemma {:induction false} ResponsesRunEmits(st: ResponsesStream.State, inputs: seq<ResponsesStream.Input>)
    ensures forall e :: e in ResponsesStream.Run(st, inputs).events ==> IsDelta(e)
    decreases |inputs|
  {
    if inputs != [] {
      match inputs[0]
      case Skipped => ResponsesRunEmits(st, inputs[1..]);
      case Got(event) => ResponsesRunEmits(ResponsesStream.Step(st, event).0, inputs[1..]);
      case _ =>
    }
  }

  lemma TailShape(indices: seq<nat>, stop: StopReason, usage: Usage)
    ensures var tail := Tail(indices, stop, usage);
            && |tail| >= 2 && tail[|tail| - 1] == MessageStop
            && forall k :: 0 <= k < |tail| - 1 ==> tail[k].BlockStop? || tail[k].MessageDelta?
  {
  }

  lemma ClosingShape(ran: ResponsesStream.Ran)
    ensures var closing := ResponsesStream.Closing(ran);
            && closing != [] && (closing[|closing| - 1] == MessageStop <==> ran.failure.None?)
            && !closing[|closing| - 1].MessageStart?
            && forall k :: 0 <= k < |closing| - 1 ==> closing[k].BlockStop? || closing[k].MessageDelta?
  {
    TailShape([0] + ResponsesStream.Blocks(ran.state.calls), ran.state.stop, ran.state.usage);
  }

  /** The Responses converter's stream: a start, then neither start nor stop up to its last event. */
  lemma ResponsesShape(id: string, inputs: seq<ResponsesStream.Input>)
    ensures var events := ResponsesStream.Stream(id, inputs);
            && |events| > 1 && events[0] == MessageStart(id)
            && (events[|events| - 1] == MessageStop <==> ResponsesStream.Run(ResponsesStream.INIT, inputs).failure.None?)
            && !events[|events| - 1].MessageStart?
            && forall k :: 1 <= k < |events| - 1 ==> !events[k].MessageStart? && !events[k].MessageStop?
  {
    var ran := ResponsesStream.Run(ResponsesStream.INIT, inputs);
    ResponsesRunEmits(ResponsesStream.INIT, inputs);
    var events, front, closing := ResponsesStream.Stream(id, inputs), ChatStream.Preamble(id) + ran.events, ResponsesStream.Closing(ran);
    hide ResponsesStream.Closing;
    ClosingShape(ran);
    assert events == front + closing && events[|events| - 1] == closing[|closing| - 1];
    forall k | 1 <= k < |events| - 1 ensures !events[k].MessageStart? && !events[k].MessageStop? {
      if k < 3 {
        assert events[1] == BlockStart(0, TextBlock) && events[2] == Ping;
      } else if k < |front| {
        assert events[k] == ran.events[k - 3] && events[k] in ran.events;
      } else {
        assert events[k] == closing[k - |front|];
      }
    }
  }

  /**
   * A recorded stream of the Responses converter: whatever the upstream did, repeated indices
   * included, and wherever the client left, the message is recorded exactly when its whole
   * stream went out and did not end with an error, under its id, with the assembled content.
   */
  lemma ResponsesStreamRecordedWhenComplete(id: string, inputs: seq<ResponsesStream.Input>, taken: nat)
    requires taken <= |ResponsesStream.Stream(id, inputs)|
    ensures var events := ResponsesStream.Stream(id, inputs);
            Recordings(NOTHING, Emit(events[..taken])) ==
              if taken == |events| && ResponsesStream.Run(ResponsesStream.INIT, inputs).failure.None?
              then [(id, ContentOf(TakeAll(NOTHING, events).blocks))] else []
  {
    hide ResponsesStream.Stream, ContentOf;
    var events := ResponsesStream.Stream(id, inputs);
    ResponsesShape(id, inputs);
    var n := |events| - 1;
    if taken == |events| && events[n] == MessageStop {
      var a := Take(NOTHING, events[0]);
      assert events[..taken] == events == [events[0]] + events[1..] && events[1..] == events[1..n] + [MessageStop];
      assert Emit(events)[1..] == Emit(events[1..]);
      RecordedByLast(a, events[1..n]);
    } else {
      NothingRecorded(NOTHING, events[..taken]);
    }
  }
}
