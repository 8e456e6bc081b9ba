/**
 * A whole threaded conversation. A client creates a thread with a full
 * request and then continues it, each time from the latest response; every
 * rebuilt request is the one it would have sent without threads.
 */
module ThreadChain {
  import opened Common
  import opened Json
  import opened Assembler
  import opened OrderedStore
  import opened StoreLog
  import opened ThreadStore

  /** One step: what the latest request was answered with, and the continuation sent after it. */
  datatype Turn = Turn(answer: seq<Content>, delta: Request)

  /** The requests as the router rebuilds them, one from the other. */
  function Follow(create: Request, turns: seq<Turn>): Request {
    if turns == [] then create
    else
      var last := turns[|turns| - 1];
      Rebuild(HeldOf(Follow(create, turns[..|turns| - 1]), last.answer), last.delta)
  }

  // ----- the request the client would have sent whole

  /** The newest value a scalar field was given. */
  function NewestScalar(create: Request, turns: seq<Turn>, key: string): Option<Json> {
    if turns == [] then FieldOf(create, key)
    else
      var last := turns[|turns| - 1].delta;
      if key in last then Some(last[key]) else NewestScalar(create, turns[..|turns| - 1], key)
  }

  /** The last non-empty tools. */
  function NewestTools(create: Request, turns: seq<Turn>): Option<Json> {
    if turns == [] then FieldOf(create, "tools")
    else
      var last := turns[|turns| - 1].delta;
      if ListOf(last, "tools") != [] then Some(last["tools"]) else NewestTools(create, turns[..|turns| - 1])
  }

  /** A system prompt that begins with the attribution block of a client. */
  predicate BeginsAttributed(system: Option<Json>) {
    match system
    case Some(JArr(blocks)) =>
      && blocks != [] && blocks[0].JObj?
      && "type" in blocks[0].fields && blocks[0].fields["type"] == JStr("text")
      && "text" in blocks[0].fields && blocks[0].fields["text"].JStr?
      && var text := blocks[0].fields["text"].chars;
         |text| >= 27 && text[..27] == "x-anthropic-billing-header:"
    case _ => false
  }

  /** The newest attribution block among the continuations. */
  function NewestAttribution(turns: seq<Turn>): Option<Json> {
    if turns == [] then None
    else
      var system := FieldOf(turns[|turns| - 1].delta, "system");
      if BeginsAttributed(system) then Some(system.value.items[0]) else NewestAttribution(turns[..|turns| - 1])
  }

  /** The original system prompt, with the newest attribution block first if it has one. */
  function WholeSystem(create: Request, turns: seq<Turn>): Option<Json> {
    var original := FieldOf(create, "system");
    var attribution := NewestAttribution(turns);
    if BeginsAttributed(original) && attribution.Some?
    then Some(JArr([attribution.value] + original.value.items[1..]))
    else if original == Some(JNull) then None
    else original
  }

  /** Everything said: the client's messages and the recorded answers, in order. */
  function WholeMessages(create: Request, turns: seq<Turn>): seq<Json> {
    if turns == [] then ListOf(create, "messages")
    else
      var last := turns[|turns| - 1];
      WholeMessages(create, turns[..|turns| - 1])
      + [AssistantTurn(if last.answer == [] then [Text("")] else last.answer)]
      + ListOf(last.delta, "messages")
  }

  /** A content block as the Messages API writes it. */
  predicate IsBlock(block: Json, c: Content) {
    && block.JObj?
    && match c
       case Text(text) =>
         block.fields.Keys == {"type", "text"} && block.fields["type"] == JStr("text") && block.fields["text"] == JStr(text)
       case ToolUseContent(id, name, input) =>
         && block.fields.Keys == {"type", "id", "name", "input"} && block.fields["type"] == JStr("tool_use")
         && block.fields["id"] == JStr(id) && block.fields["name"] == JStr(name) && block.fields["input"] == input
  }

  /** An assistant message with an answer's blocks in order; an empty answer is one empty text. */
  predicate IsAnswered(message: Json, answer: seq<Content>) {
    && message.JObj? && message.fields.Keys == {"role", "content"}
    && message.fields["role"] == JStr("assistant") && message.fields["content"].JArr?
    && var blocks := message.fields["content"].items;
       if answer == [] then |blocks| == 1 && IsBlock(blocks[0], Text(""))
       else |blocks| == |answer| && forall j :: 0 <= j < |answer| ==> IsBlock(blocks[j], answer[j])
  }

  /** The messages a request brings; a missing or null list brings none. */
  function Brought(r: Request): seq<Json> {
    if "messages" !in r then [] else match r["messages"] case JArr(items) => items case _ => []
  }

  /** The messages are the client's own, with each answer behind those it answered. */
  predicate Says(messages: seq<Json>, create: Request, turns: seq<Turn>)
    decreases |turns|
  {
    if turns == [] then messages == Brought(create)
    else
      var last := turns[|turns| - 1];
      var n := |messages| - |Brought(last.delta)| - 1;
      && n >= 0 && messages[n + 1..] == Brought(last.delta)
      && IsAnswered(messages[n], last.answer)
      && Says(messages[..n], create, turns[..|turns| - 1])
  }

  lemma SaysStep(before: seq<Json>, message: Json, create: Request, turns: seq<Turn>)
    requires turns != [] && Says(before, create, turns[..|turns| - 1]) && IsAnswered(message, turns[|turns| - 1].answer)
    ensures Says(before + [message] + Brought(turns[|turns| - 1].delta), create, turns)
  {
    hide IsAnswered, Brought;
    var brought := Brought(turns[|turns| - 1].delta);
    var all := before + [message] + brought;
    assert all[..|before|] == before && all[|before|] == message && all[|before| + 1..] == brought;
  }

  lemma {:induction false} WholeMessagesSay(create: Request, turns: seq<Turn>)
    ensures Says(WholeMessages(create, turns), create, turns)
  {
    hide IsAnswered, AssistantTurn;
    if turns != [] {
      hide Says;
      var last := turns[|turns| - 1];
      WholeMessagesSay(create, turns[..|turns| - 1]);
      AnswerIsAnswered(last.answer);
      ListIsBrought(last.delta);
      SaysStep(WholeMessages(create, turns[..|turns| - 1]), AssistantTurn(if last.answer == [] then [Text("")] else last.answer), create, turns);
    } else {
      ListIsBrought(create);
    }
  }

  lemma ListIsBrought(r: Request)
    ensures ListOf(r, "messages") == Brought(r)
  {
  }

  lemma AnswerIsAnswered(answer: seq<Content>)
    ensures IsAnswered(AssistantTurn(if answer == [] then [Text("")] else answer), answer)
  {
  }

  /** What the client would have sent in full. */
  ghost predicate IsWhole(r: Request, create: Request, turns: seq<Turn>) {
    && "messages" in r && r["messages"].JArr? && Says(r["messages"].items, create, turns)
    && FieldOf(r, "system") == WholeSystem(create, turns)
    && FieldOf(r, "tools") == NewestTools(create, turns)
    && "thread" !in r
    && forall key :: key !in {"system", "messages", "tools", "thread"} ==> FieldOf(r, key) == NewestScalar(create, turns, key)
  }

  lemma RebuildFields(held: Held, delta: Request, key: string)
    ensures key !in HELD_FIELDS ==>
              FieldOf(Rebuild(held, delta), key) == if key in delta then Some(delta[key]) else FieldOf(held.request, key)
    ensures FieldOf(Rebuild(held, delta), "messages")
              == Some(JArr(ListOf(held.request, "messages") + [AssistantTurn(held.content)] + ListOf(delta, "messages")))
    ensures FieldOf(Rebuild(held, delta), "tools")
              == if ListOf(delta, "tools") != [] then Some(delta["tools"]) else FieldOf(held.request, "tools")
    ensures "thread" in Rebuild(held, delta) <==> "thread" in held.request
  {
  }

  lemma RebuildSystem(held: Held, delta: Request)
    ensures var merged := MergeSystem(FieldOf(held.request, "system"), FieldOf(delta, "system"));
            FieldOf(Rebuild(held, delta), "system") == if merged == Some(JNull) then None else merged
  {
  }

  lemma {:induction false} FollowScalar(create: Request, turns: seq<Turn>, key: string)
    requires key !in HELD_FIELDS
    ensures FieldOf(Follow(create, turns), key) == NewestScalar(create, turns, key)
  {
    if turns != [] {
      var front, last := turns[..|turns| - 1], turns[|turns| - 1];
      FollowScalar(create, front, key);
      RebuildFields(HeldOf(Follow(create, front), last.answer), last.delta, key);
    }
  }

  lemma {:induction false} FollowMessages(create: Request, turns: seq<Turn>)
    ensures ListOf(Follow(create, turns), "messages") == WholeMessages(create, turns)
    ensures turns != [] ==> FieldOf(Follow(create, turns), "messages") == Some(JArr(WholeMessages(create, turns)))
    ensures turns != [] ==> "thread" !in Follow(create, turns)
    ensures FieldOf(Follow(create, turns), "tools") == NewestTools(create, turns)
  {
    if turns != [] {
      var front, last := turns[..|turns| - 1], turns[|turns| - 1];
      FollowMessages(create, front);
      RebuildFields(HeldOf(Follow(create, front), last.answer), last.delta, "");
    }
  }

  lemma {:induction false} FollowSystem(create: Request, turns: seq<Turn>)
    requires turns != []
    ensures FieldOf(Follow(create, turns), "system") == WholeSystem(create, turns)
  {
    hide WholeSystem, MergeSystem, Rebuild;
    var front, last := turns[..|turns| - 1], turns[|turns| - 1];
    var before := Follow(create, front);
    if front != [] {
      FollowSystem(create, front);
    }
    RebuildSystem(HeldOf(before, last.answer), last.delta);
    SystemStep(create, front, last, FieldOf(before, "system"));
    assert front + [last] == turns;
  }

  /**
   * Any number of continuations, each from the latest response: the rebuilt request holds all
   * messages and answers in order, the original prompt with the newest attribution, the last
   * non-empty tools, the newest scalars, and no thread.
   */
  lemma FollowIsWhole(create: Request, turns: seq<Turn>)
    requires turns != []
    ensures IsWhole(Follow(create, turns), create, turns)
  {
    hide Says, Follow, WholeMessages, WholeSystem, NewestTools;
    FollowMessages(create, turns);
    WholeMessagesSay(create, turns);
    FollowSystem(create, turns);
    forall key | key !in HELD_FIELDS ensures FieldOf(Follow(create, turns), key) == NewestScalar(create, turns, key) {
      FollowScalar(create, turns, key);
    }
  }

  lemma SystemStep(create: Request, front: seq<Turn>, last: Turn, before: Option<Json>)
    requires before == if front == [] then FieldOf(create, "system") else WholeSystem(create, front)
    ensures var merged := MergeSystem(before, FieldOf(last.delta, "system"));
            (if merged == Some(JNull) then None else merged) == WholeSystem(create, front + [last])
  {
    assert (front + [last])[..|front|] == front;
    var original := FieldOf(create, "system");
    var attribution := NewestAttribution(front);
    AttributionIsAttributed(front);
    if front != [] && IsAttributed(original) && attribution.Some? {
      assert before.value.items[1..] == original.value.items[1..];
    }
  }

  lemma {:induction false} AttributionIsAttributed(turns: seq<Turn>)
    ensures NewestAttribution(turns).Some? ==> IsAttribution(NewestAttribution(turns).value)
  {
    if turns != [] {
      AttributionIsAttributed(turns[..|turns| - 1]);
    }
  }

  // ----- through the store

  /** Other conversations recording into the same store, and time passing. */
  method OtherConversations(store: ThreadStore, mine: string, now: real) returns (later: real)
    requires store.Valid() && store.at <= now
    modifies store
    ensures store.Valid() && store.at <= later && now <= later
    ensures old(store.log) <= store.log
    ensures forall p :: |old(store.log)| <= p < |store.log| ==> store.log[p].key != mine
  {
    later := now;
    var rounds: nat := *;
    while rounds > 0
      invariant store.Valid() && store.at <= later && now <= later
      invariant old(store.log) <= store.log
      invariant forall p :: |old(store.log)| <= p < |store.log| ==> store.log[p].key != mine
    {
      var id: string, request: Request, content: seq<Content>, passed: real := *, *, *, *;
      later := later + MaxR(passed, 0.0);
      if id != mine {
        store.Record(id, request, content, later);
      }
      rounds := rounds - 1;
    }
  }

  /** Record an answer, let others use the store, and continue from that answer. */
  method TakeTurn(store: ThreadStore, request: Request, turn: Turn, id: string, now: real)
    returns (rebuilt: Result<Request, Miss>, later: real)
    requires store.Valid() && store.at <= now
    modifies store
    ensures store.Valid() && store.at == later
    ensures if rebuilt.Ok? then rebuilt.value == Rebuild(HeldOf(request, turn.answer), turn.delta)
            else forall p: nat :: !Hit(store.log, p, id, later, store.bounds)
  {
    store.Record(id, request, turn.answer, now);
    ghost var p := |store.log| - 1;
    ghost var recorded := store.log;
    later := OtherConversations(store, id, now);
    assert store.log[p] == recorded[p];
    rebuilt := store.Resume(Some(id), turn.delta, later);
    LatestIsHit(store.log, p, id, later, store.bounds);
  }

  /**
   * One conversation against a store that others use too: each rebuilt request is the whole
   * one, and only a response that is no longer held ends it early.
   */
  method Converse(store: ThreadStore, create: Request, turns: seq<Turn>, ids: seq<string>, start: real)
    returns (request: Request, followed: nat)
    requires store.Valid() && store.at <= start && |ids| == |turns|
    modifies store
    ensures store.Valid() && followed <= |turns|
    ensures request == Follow(create, turns[..followed])
    ensures followed > 0 ==> IsWhole(request, create, turns[..followed])
    ensures followed < |turns| ==> forall p: nat :: !Hit(store.log, p, ids[followed], store.at, store.bounds)
  {
    hide IsWhole, Hit, Rebuild;
    request, followed := create, 0;
    var now := start;
    while followed < |turns|
      invariant followed <= |turns|
      invariant store.Valid() && store.at <= now
      invariant request == Follow(create, turns[..followed])
    {
      var rebuilt;
      rebuilt, now := TakeTurn(store, request, turns[followed], ids[followed], now);
      if rebuilt.Err? {
        break;
      }
      assert turns[..followed + 1][..followed] == turns[..followed];
      request, followed := rebuilt.value, followed + 1;
    }
    if followed > 0 {
      FollowIsWhole(create, turns[..followed]);
    }
  }

  /** A key written at `p` and not after: whatever a lookup hits is that write. */
  lemma LatestIsHit(log: Log, p: nat, id: string, now: real, b: Bounds)
    requires p < |log| && log[p].key == id && forall q :: p < q < |log| ==> log[q].key != id
    ensures forall q: nat :: Hit(log, q, id, now, b) ==> q == p
  {
    forall q: nat | Hit(log, q, id, now, b) ensures q == p {
      if q < p {
        LaterKeyDiffers(log, q, p);
      }
    }
  }
}
