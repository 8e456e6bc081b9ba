/**
 * Reasoning items across a tool-call step: a Responses output becomes an
 * Anthropic message plus cache entries, and the message sent back becomes
 * `input` items with the cached reasoning before each call.
 */
module ReasoningRoundTrip {
  import opened Common
  import opened Json
  import opened OrderedStore
  import opened StoreLog
  import opened ResponsesOutput
  import opened ReasoningCache
  import opened Assembler
  import opened Events
  import ChatUnary

  /** Reasoning items by call id, in the order the ids were first set. */
  type ByCall = seq<(string, seq<Fields>)>

  function SetCall(held: ByCall, id: string, items: seq<Fields>): ByCall {
    if held == [] then [(id, items)]
    else if held[0].0 == id then [(id, items)] + held[1..]
    else [held[0]] + SetCall(held[1..], id, items)
  }

  function ExtractFrom(output: seq<OutputItem>, held: ByCall, pending: seq<Fields>): ByCall
    decreases |output|
  {
    if output == [] then held else
    match output[0]
    case ReasoningItem(fields) => ExtractFrom(output[1..], held, pending + [fields])
    case FunctionCallItem(callId, _, _, _) =>
      ExtractFrom(output[1..], if pending != [] && callId != "" then SetCall(held, callId, pending) else held, [])
    case _ => ExtractFrom(output[1..], held, pending)
  }

  function Extract(output: seq<OutputItem>): ByCall {
    ExtractFrom(output, [], [])
  }

  method ExtractReasoningByCallId(output: seq<OutputItem>) returns (held: ByCall)
    ensures held == Extract(output)
  {
    held := [];
    var pending: seq<Fields> := [];
    var i := 0;
    while i < |output|
      invariant 0 <= i <= |output|
      invariant ExtractFrom(output[i..], held, pending) == Extract(output)
    {
      match output[i] {
        case ReasoningItem(fields) => pending := pending + [fields];
        case FunctionCallItem(callId, _, _, _) =>
          if pending != [] && callId != "" {
            held := SetCall(held, callId, pending);
          }
          pending := [];
        case _ =>
      }
      i := i + 1;
    }
  }

  /** The tool input of a function call: its arguments parsed, `{}` when there are none. */
  function CallInput(arguments: string): Json {
    ChatUnary.UnaryInput(if arguments == "" then "{}" else arguments)
  }

  function TextContents(texts: seq<string>): seq<Content> {
    seq(|texts|, k requires 0 <= k < |texts| => Text(texts[k]))
  }

  /** `generated` is the id made up for a call that has none. */
  function ItemContents(item: OutputItem, generated: string): seq<Content> {
    match item
    case MessageItem(texts) => TextContents(texts)
    case FunctionCallItem(callId, itemId, name, arguments) =>
      [ToolUseContent(if callId != "" then callId else if itemId != "" then itemId else generated,
                      name, CallInput(arguments))]
    case _ => []
  }

  function Contents(output: seq<OutputItem>, generated: string): seq<Content> {
    if output == [] then [] else ItemContents(output[0], generated) + Contents(output[1..], generated)
  }

  /** The content of the converted message; a response without content gets an empty text block. */
  function MessageContent(output: seq<OutputItem>, generated: string): seq<Content> {
    var blocks := Contents(output, generated);
    if blocks == [] then [Text("")] else blocks
  }

  /** Items of the Responses `input` array made from an assistant message. */
  datatype InputItem =
    | AssistantText(text: string)
    | InputReasoning(fields: Fields)
    | InputCall(callId: string, name: string, arguments: Json)

  /** The items as they are sent: a call's arguments are written out as text. */
  datatype WireItem = WireText(text: string) | WireReasoning(fields: Fields) | WireCall(callId: string, name: string, arguments: string)

  function WireOf(dumps: Json -> string, item: InputItem): (wire: WireItem)
    ensures item.AssistantText? ==> wire.WireText? && wire.text == item.text
    ensures item.InputReasoning? ==> wire.WireReasoning? && wire.fields == item.fields
    ensures item.InputCall? ==>
              wire.WireCall? && wire.callId == item.callId && wire.name == item.name && wire.arguments == dumps(item.arguments)
  {
    match item
    case AssistantText(text) => WireText(text)
    case InputReasoning(fields) => WireReasoning(fields)
    case InputCall(callId, name, arguments) => WireCall(callId, name, dumps(arguments))
  }

  function Written(dumps: Json -> string, items: seq<InputItem>): seq<WireItem> {
    seq(|items|, k requires 0 <= k < |items| => WireOf(dumps, items[k]))
  }

  lemma WrittenText(dumps: Json -> string, text: string)
    ensures Written(dumps, []) == [] && Written(dumps, [AssistantText(text)]) == [WireText(text)]
  {
  }

  lemma WrittenConcat(dumps: Json -> string, a: seq<InputItem>, b: seq<InputItem>)
    ensures Written(dumps, a + b) == Written(dumps, a) + Written(dumps, b)
  {
  }

  /** When different values have different texts, different items are sent differently. */
  lemma WrittenApart(dumps: Json -> string, a: seq<InputItem>, b: seq<InputItem>)
    requires forall v: Json, w: Json :: dumps(v) == dumps(w) ==> v == w
    ensures Written(dumps, a) == Written(dumps, b) <==> a == b
  {
    if Written(dumps, a) == Written(dumps, b) {
      assert |a| == |Written(dumps, a)| == |b|;
      forall k | 0 <= k < |a| ensures a[k] == b[k] {
        assert WireOf(dumps, a[k]) == Written(dumps, a)[k] == Written(dumps, b)[k] == WireOf(dumps, b[k]);
      }
    }
  }

  function ReasoningItems(items: seq<Fields>): seq<InputItem> {
    seq(|items|, k requires 0 <= k < |items| => InputReasoning(items[k]))
  }

  function JoinTexts(content: seq<Content>): string {
    if content == [] then "" else (if content[0].Text? then content[0].text else "") + JoinTexts(content[1..])
  }

  /** The calls of a message, each preceded by what the cache recalls for it. */
  ghost function RecalledCall(c: Content, log: seq<Entry<seq<Fields>>>, now: real, b: Bounds): seq<InputItem> {
    match c
    case Text(_) => []
    case ToolUseContent(id, name, input) => ReasoningItems(Recall(log, id, now, b)) + [InputCall(id, name, input)]
  }

  ghost function RecalledCalls(content: seq<Content>, log: seq<Entry<seq<Fields>>>, now: real, b: Bounds): seq<InputItem> {
    if content == [] then []
    else RecalledCall(content[0], log, now, b) + RecalledCalls(content[1..], log, now, b)
  }

  predicate HasText(content: seq<Content>) {
    content != [] && (content[0].Text? || HasText(content[1..]))
  }

  ghost function AssistantInput(content: seq<Content>, log: seq<Entry<seq<Fields>>>, now: real, b: Bounds): seq<InputItem> {
    (if HasText(content) then [AssistantText(JoinTexts(content))] else [])
    + RecalledCalls(content, log, now, b)
  }

  /** The first `i` blocks are converted: what is still to come completes the whole. */
  ghost predicate Converted(content: seq<Content>, i: nat, text: string, anyText: bool, calls: seq<InputItem>,
                            log: seq<Entry<seq<Fields>>>, now: real, b: Bounds) {
    && i <= |content|
    && text + JoinTexts(content[i..]) == JoinTexts(content)
    && (anyText || HasText(content[i..]) <==> HasText(content))
    && calls + RecalledCalls(content[i..], log, now, b) == RecalledCalls(content, log, now, b)
  }

  lemma ConvertedNone(content: seq<Content>, log: seq<Entry<seq<Fields>>>, now: real, b: Bounds)
    ensures Converted(content, 0, "", false, [], log, now, b)
  {
    assert content[0..] == content;
    NoneAdded(RecalledCalls(content, log, now, b));
  }

  lemma ConvertedStep(content: seq<Content>, i: nat, text: string, anyText: bool, calls: seq<InputItem>,
                      log: seq<Entry<seq<Fields>>>, now: real, b: Bounds)
    requires i < |content|
    ensures Converted(content, i, text, anyText, calls, log, now, b) ==>
            Converted(content, i + 1, text + (if content[i].Text? then content[i].text else ""),
                      anyText || content[i].Text?, calls + RecalledCall(content[i], log, now, b), log, now, b)
  {
    hide RecalledCall;
    assert content[i..][1..] == content[i + 1..];
    var more := RecalledCall(content[i], log, now, b);
    assert calls + (more + RecalledCalls(content[i + 1..], log, now, b)) == (calls + more) + RecalledCalls(content[i + 1..], log, now, b);
    var t := if content[i].Text? then content[i].text else "";
    assert text + (t + JoinTexts(content[i + 1..])) == (text + t) + JoinTexts(content[i + 1..]);
  }

  lemma ConvertedAll(content: seq<Content>, text: string, anyText: bool, calls: seq<InputItem>,
                     log: seq<Entry<seq<Fields>>>, now: real, b: Bounds)
    requires Converted(content, |content|, text, anyText, calls, log, now, b)
    ensures (if anyText then [AssistantText(text)] else []) + calls == AssistantInput(content, log, now, b)
  {
    assert content[|content|..] == [];
    assert text + "" == text && calls + [] == calls;
  }

  /** A call and the reasoning recalled for it; nothing for a text block. */
  method ConvertBlock(dumps: Json -> string, c: Content, cache: ReasoningCache, now: real) returns (items: seq<WireItem>)
    requires cache.Valid() && cache.at <= now
    modifies cache
    ensures cache.Valid() && cache.at <= now && cache.log == old(cache.log)
    ensures items == Written(dumps, RecalledCall(c, cache.log, now, cache.bounds))
  {
    items := [];
    if c.ToolUseContent? {
      var recalled := cache.Get(c.id, now);
      items := Written(dumps, ReasoningItems(recalled)) + [WireCall(c.id, c.name, dumps(c.input))];
      WrittenConcat(dumps, ReasoningItems(recalled), [InputCall(c.id, c.name, c.input)]);
    }
  }

  /** The content of an assistant message: a string, or blocks. */
  datatype AssistantContent = Plain(text: string) | Blocks(blocks: seq<Content>)

  method ConvertAssistantMessage(dumps: Json -> string, content: AssistantContent, cache: ReasoningCache, now: real)
    returns (items: seq<WireItem>)
    requires cache.Valid() && cache.at <= now
    modifies cache
    ensures cache.Valid() && cache.log == old(cache.log)
    ensures content.Plain? ==> items == [WireText(content.text)]
    ensures content.Blocks? ==> items == Written(dumps, AssistantInput(content.blocks, cache.log, now, cache.bounds))
  {
    match content {
      case Plain(text) => items := [WireText(text)];
      case Blocks(blocks) => items := ConvertBlocks(dumps, blocks, cache, now);
    }
  }

  method ConvertBlocks(dumps: Json -> string, content: seq<Content>, cache: ReasoningCache, now: real) returns (items: seq<WireItem>)
    requires cache.Valid() && cache.at <= now
    modifies cache
    ensures cache.Valid() && cache.log == old(cache.log)
    ensures items == Written(dumps, AssistantInput(content, cache.log, now, cache.bounds))
  {
    hide Written, WireOf, Converted, AssistantInput, RecalledCall;
    var text, anyText := "", false;
    var sent: seq<WireItem> := [];
    ghost var calls: seq<InputItem> := [];
    ghost var log := cache.log;
    ConvertedNone(content, log, now, cache.bounds);
    WrittenText(dumps, text);
    var i := 0;
    while i < |content|
      invariant 0 <= i <= |content|
      invariant cache.Valid() && cache.at <= now && cache.log == log
      invariant sent == Written(dumps, calls)
      invariant Converted(content, i, text, anyText, calls, log, now, cache.bounds)
    {
      ConvertedStep(content, i, text, anyText, calls, log, now, cache.bounds);
      if content[i].Text? {
        text, anyText := text + content[i].text, true;
      } else {
        assert text + "" == text;
      }
      var more := ConvertBlock(dumps, content[i], cache, now);
      WrittenConcat(dumps, calls, RecalledCall(content[i], log, now, cache.bounds));
      calls := calls + RecalledCall(content[i], log, now, cache.bounds);
      sent := sent + more;
      i := i + 1;
    }
    ConvertedAll(content, text, anyText, calls, log, now, cache.bounds);
    WrittenText(dumps, text);
    WrittenConcat(dumps, if anyText then [AssistantText(text)] else [], calls);
    items := (if anyText then [WireText(text)] else []) + sent;
  }

  // ----- the round trip

  /** The output as far as it goes back: reasoning and calls in place, nothing after the last call. */
  function Forwarded(output: seq<OutputItem>): seq<InputItem> {
    if output == [] then []
    else
      var last := output[|output| - 1];
      if last.FunctionCallItem? then Translated(output) else Forwarded(output[..|output| - 1])
  }

  function Translated(output: seq<OutputItem>): seq<InputItem> {
    if output == [] then [] else
    Translated(output[..|output| - 1]) +
    match output[|output| - 1]
    case ReasoningItem(fields) => [InputReasoning(Sanitize(fields))]
    case FunctionCallItem(callId, _, name, arguments) => [InputCall(callId, name, CallInput(arguments))]
    case _ => []
  }

  function CallIds(output: seq<OutputItem>): seq<string> {
    if output == [] then []
    else (if output[0].FunctionCallItem? then [output[0].callId] else []) + CallIds(output[1..])
  }

  predicate DistinctIds(ids: seq<string>) {
    && (forall k :: 0 <= k < |ids| ==> ids[k] != "")
    && (forall j, k :: 0 <= j < k < |ids| ==> ids[j] != ids[k])
  }

  function ByKeys(held: ByCall): set<string> {
    set k | 0 <= k < |held| :: held[k].0
  }

  /** The items stored under an id, none when there are none. */
  function Stored(held: ByCall, id: string): seq<Fields> {
    if held == [] then [] else if held[0].0 == id then held[0].1 else Stored(held[1..], id)
  }

  function StoredCalls(content: seq<Content>, held: ByCall): seq<InputItem> {
    if content == [] then [] else
    (match content[0]
     case Text(_) => []
     case ToolUseContent(id, name, input) => ReasoningItems(SanitizeAll(Stored(held, id))) + [InputCall(id, name, input)])
    + StoredCalls(content[1..], held)
  }

  /** Reasoning carried to the next call, read front to back. */
  function Carried(output: seq<OutputItem>, pending: seq<Fields>): seq<InputItem>
    decreases |output|
  {
    if output == [] then [] else
    match output[0]
    case ReasoningItem(fields) => Carried(output[1..], pending + [fields])
    case FunctionCallItem(callId, _, name, arguments) =>
      ReasoningItems(SanitizeAll(pending)) + [InputCall(callId, name, CallInput(arguments))] + Carried(output[1..], [])
    case _ => Carried(output[1..], pending)
  }

  lemma {:induction false} SetCallStored(held: ByCall, id: string, items: seq<Fields>, other: string)
    ensures Stored(SetCall(held, id, items), other) == if other == id then items else Stored(held, other)
    ensures ByKeys(SetCall(held, id, items)) == ByKeys(held) + {id}
    ensures id !in ByKeys(held) ==> SetCall(held, id, items) == held + [(id, items)]
  {
    if held == [] {
      assert SetCall(held, id, items)[0].0 == id;
    } else {
      ByKeysCons(held);
      ByKeysCons(SetCall(held, id, items));
      if held[0].0 != id {
        SetCallStored(held[1..], id, items, other);
      }
    }
  }

  lemma ByKeysCons(held: ByCall)
    requires held != []
    ensures ByKeys(held) == {held[0].0} + ByKeys(held[1..])
  {
    forall id | id in ByKeys(held) ensures id in {held[0].0} + ByKeys(held[1..]) {
      var k :| 0 <= k < |held| && held[k].0 == id;
      if k > 0 { assert held[1..][k - 1].0 == id; }
    }
    forall id | id in ByKeys(held[1..]) ensures id in ByKeys(held) {
      var k :| 0 <= k < |held| - 1 && held[1..][k].0 == id;
      assert held[k + 1].0 == id;
    }
  }

  lemma {:induction false} UnsetIsNothing(held: ByCall, id: string)
    requires id !in ByKeys(held)
    ensures Stored(held, id) == []
  {
    if held != [] {
      ByKeysCons(held);
      UnsetIsNothing(held[1..], id);
    }
  }

  /** What is stored for an id outside the remaining output never changes again. */
  lemma {:induction false} ExtractKeeps(output: seq<OutputItem>, held: ByCall, pending: seq<Fields>, id: string)
    requires id !in CallIds(output)
    ensures Stored(ExtractFrom(output, held, pending), id) == Stored(held, id)
    decreases |output|
  {
    if output != [] {
      match output[0]
      case ReasoningItem(fields) => ExtractKeeps(output[1..], held, pending + [fields], id);
      case FunctionCallItem(callId, _, _, _) =>
        SetCallStored(held, callId, pending, id);
        ExtractKeeps(output[1..], if pending != [] && callId != "" then SetCall(held, callId, pending) else held, [], id);
      case _ => ExtractKeeps(output[1..], held, pending, id);
    }
  }

  /** Each call of the message gets back the reasoning that was pending when it came. */
  lemma {:induction false} StoredIsCarried(output: seq<OutputItem>, held: ByCall, pending: seq<Fields>, generated: string)
    requires DistinctIds(CallIds(output))
    requires forall id :: id in CallIds(output) ==> id !in ByKeys(held)
    ensures StoredCalls(Contents(output, generated), ExtractFrom(output, held, pending)) == Carried(output, pending)
    decreases |output|
  {
    if output != [] {
      var rest := output[1..];
      var all := ExtractFrom(output, held, pending);
      IdsTail(output);
      match output[0]
      case ReasoningItem(fields) =>
        StoredIsCarried(rest, held, pending + [fields], generated);
        assert [] + Contents(rest, generated) == Contents(rest, generated);
      case FunctionCallItem(callId, _, name, arguments) =>
        var by1 := if pending != [] then SetCall(held, callId, pending) else held;
        assert CallIds(output)[0] == callId;
        SetCallStored(held, callId, pending, callId);
        UnsetIsNothing(held, callId);
        assert callId !in CallIds(rest);
        ExtractKeeps(rest, by1, [], callId);
        assert Stored(all, callId) == pending;
        StoredIsCarried(rest, by1, [], generated);
        var head := [ToolUseContent(callId, name, CallInput(arguments))];
        assert (head + Contents(rest, generated))[1..] == Contents(rest, generated);
      case MessageItem(texts) =>
        TextsStoreNothing(TextContents(texts), Contents(rest, generated), all);
        StoredIsCarried(rest, held, pending, generated);
      case OtherItem =>
        StoredIsCarried(rest, held, pending, generated);
        assert [] + Contents(rest, generated) == Contents(rest, generated);
    }
  }

  lemma IdsTail(output: seq<OutputItem>)
    requires output != [] && DistinctIds(CallIds(output))
    ensures DistinctIds(CallIds(output[1..]))
    ensures forall id :: id in CallIds(output[1..]) ==> id in CallIds(output)
    ensures output[0].FunctionCallItem? ==> output[0].callId != "" && output[0].callId !in CallIds(output[1..])
  {
    var ids, tail := CallIds(output), CallIds(output[1..]);
    if output[0].FunctionCallItem? {
      assert ids == [output[0].callId] + tail;
      assert ids[0] == output[0].callId;
      assert forall k :: 0 <= k < |tail| ==> tail[k] == ids[k + 1];
    } else {
      assert ids == tail;
    }
  }

  lemma {:induction false} TextsStoreNothing(texts: seq<Content>, rest: seq<Content>, held: ByCall)
    requires forall k :: 0 <= k < |texts| ==> texts[k].Text?
    ensures StoredCalls(texts + rest, held) == StoredCalls(rest, held)
  {
    if texts == [] {
      assert texts + rest == rest;
    } else {
      assert (texts + rest)[1..] == texts[1..] + rest;
      TextsStoreNothing(texts[1..], rest, held);
    }
  }

  lemma TranslatedAppend(done: seq<OutputItem>, item: OutputItem)
    ensures Translated(done + [item]) == Translated(done) +
              match item
              case ReasoningItem(fields) => [InputReasoning(Sanitize(fields))]
              case FunctionCallItem(callId, _, name, arguments) => [InputCall(callId, name, CallInput(arguments))]
              case _ => []
    ensures Forwarded(done + [item]) == if item.FunctionCallItem? then Translated(done + [item]) else Forwarded(done)
  {
    assert (done + [item])[..|done|] == done;
  }

  lemma SanitizeAppend(pending: seq<Fields>, fields: Fields)
    ensures ReasoningItems(SanitizeAll(pending + [fields])) == ReasoningItems(SanitizeAll(pending)) + [InputReasoning(Sanitize(fields))]
  {
  }

  /** What is pending after the output read so far is what its last reasoning run translates to. */
  predicate PendingAfter(done: seq<OutputItem>, pending: seq<Fields>) {
    Translated(done) == Forwarded(done) + ReasoningItems(SanitizeAll(pending))
  }

  lemma PendingStep(done: seq<OutputItem>, item: OutputItem, pending: seq<Fields>)
    requires PendingAfter(done, pending)
    ensures item.ReasoningItem? ==> PendingAfter(done + [item], pending + [item.fields])
    ensures item.FunctionCallItem? ==>
              && PendingAfter(done + [item], [])
              && Forwarded(done + [item]) == Forwarded(done) + (ReasoningItems(SanitizeAll(pending)) + [InputCall(item.callId, item.name, CallInput(item.arguments))])
    ensures !item.ReasoningItem? && !item.FunctionCallItem? ==> PendingAfter(done + [item], pending)
    ensures !item.FunctionCallItem? ==> Forwarded(done + [item]) == Forwarded(done)
  {
    TranslatedAppend(done, item);
    if item.ReasoningItem? {
      SanitizeAppend(pending, item.fields);
    }
  }

  /** Carrying reasoning forward to the next call is leaving it in place and cutting the trailing run. */
  lemma {:induction false} CarriedIsForwarded(output: seq<OutputItem>, done: seq<OutputItem>, pending: seq<Fields>)
    requires PendingAfter(done, pending)
    ensures Forwarded(done + output) == Forwarded(done) + Carried(output, pending)
    decreases |output|
  {
    hide Forwarded, PendingAfter, CallInput, SanitizeAll;
    if output == [] {
      assert done + output == done;
    } else {
      var item := output[0];
      var done1 := done + [item];
      assert done + output == done1 + output[1..];
      PendingStep(done, item, pending);
      match item
      case ReasoningItem(fields) =>
        CarriedIsForwarded(output[1..], done1, pending + [fields]);
      case FunctionCallItem(callId, _, name, arguments) =>
        CarriedIsForwarded(output[1..], done1, []);
        var run := ReasoningItems(SanitizeAll(pending)) + [InputCall(callId, name, CallInput(arguments))];
        assert Carried(output, pending) == run + Carried(output[1..], []);
      case _ =>
        CarriedIsForwarded(output[1..], done1, pending);
    }
  }

  // ----- through the cache

  /** The cache writes made for an output at time `t`. */
  function Writes(held: ByCall, t: real): (writes: seq<Entry<seq<Fields>>>)
    ensures |writes| == |held|
  {
    seq(|held|, k requires 0 <= k < |held| => Entry(held[k].0, t, SanitizeAll(held[k].1)))
  }

  predicate DistinctKeys(held: ByCall) {
    forall j, k :: 0 <= j < k < |held| ==> held[j].0 != held[k].0
  }

  /** Ids not set yet can be set without a clash. */
  predicate SetUp(held: ByCall, ids: seq<string>) {
    && DistinctKeys(held) && (forall k :: 0 <= k < |held| ==> held[k].0 !in ids)
  }

  lemma {:induction false} ExtractDistinct(output: seq<OutputItem>, held: ByCall, pending: seq<Fields>)
    requires DistinctIds(CallIds(output)) && SetUp(held, CallIds(output))
    ensures DistinctKeys(ExtractFrom(output, held, pending))
    decreases |output|
  {
    if output != [] {
      IdsTail(output);
      match output[0]
      case ReasoningItem(fields) => ExtractDistinct(output[1..], held, pending + [fields]);
      case FunctionCallItem(callId, _, _, _) =>
        assert CallIds(output)[0] == callId;
        if pending != [] {
          SetCallStored(held, callId, pending, callId);
          ExtractDistinct(output[1..], held + [(callId, pending)], []);
        } else {
          ExtractDistinct(output[1..], held, []);
        }
      case _ => ExtractDistinct(output[1..], held, pending);
    }
  }

  lemma {:induction false} StoredAt(held: ByCall, k: nat)
    requires DistinctKeys(held) && k < |held|
    ensures Stored(held, held[k].0) == held[k].1
  {
    if k > 0 {
      StoredAt(held[1..], k - 1);
    }
  }

  /** The cache log around the writes for an output. */
  function LogOf(held: ByCall, earlier: seq<Entry<seq<Fields>>>, later: seq<Entry<seq<Fields>>>, t: real): seq<Entry<seq<Fields>>> {
    earlier + Writes(held, t) + later
  }

  /**
   * The cache is still right about a call: what was stored for it is within the TTL, with fewer
   * than the cap of other keys written since; and for a call without reasoning of its own no
   * older reasoning of the same id is found.
   */
  predicate StillKept(held: ByCall, id: string, earlier: seq<Entry<seq<Fields>>>, later: seq<Entry<seq<Fields>>>, t: real, now: real, b: Bounds) {
    var log := LogOf(held, earlier, later, t);
    && (forall k: nat :: k < |held| && held[k].0 == id ==> now - t <= b.ttl && |Keys(log[|earlier| + k + 1..])| < b.cap)
    && (id !in ByKeys(held) ==> forall p: nat :: p < |earlier| && Hit(log, p, id, now, b) ==> earlier[p].value == [])
  }

  predicate NonEmpty(held: ByCall) {
    forall k :: 0 <= k < |held| ==> held[k].1 != []
  }

  /** A key has one last write. */
  lemma OnlyHit(log: seq<Entry<seq<Fields>>>, p: nat, key: string, now: real, b: Bounds)
    requires IsLastWrite(log, p) && log[p].key == key
    ensures forall q: nat :: Hit(log, q, key, now, b) ==> q == p
  {
    forall q: nat | Hit(log, q, key, now, b) ensures q == p {
      if q < p {
        LaterKeyDiffers(log, q, p);
      } else if p < q {
        LaterKeyDiffers(log, p, q);
      }
    }
  }

  lemma OwnIsLastWrite(held: ByCall, k: nat, earlier: seq<Entry<seq<Fields>>>, later: seq<Entry<seq<Fields>>>, t: real)
    requires DistinctKeys(held) && k < |held| && held[k].0 !in Keys(later)
    ensures var log, p := LogOf(held, earlier, later, t), |earlier| + k;
            IsLastWrite(log, p) && log[p] == Entry(held[k].0, t, SanitizeAll(held[k].1))
  {
    var log, p := LogOf(held, earlier, later, t), |earlier| + k;
    assert log[p] == Writes(held, t)[k];
    var back := Writes(held, t)[k + 1..];
    assert log[p + 1..] == back + later;
    KeysConcat(back, later);
    assert forall j :: 0 <= j < |back| ==> back[j].key == held[k + 1 + j].0;
  }

  /** The cache recalls what was stored for a call, exactly when it is still right about it. */
  lemma RecallsStoredIff(held: ByCall, id: string, earlier: seq<Entry<seq<Fields>>>, later: seq<Entry<seq<Fields>>>, t: real, now: real, b: Bounds)
    requires DistinctKeys(held) && NonEmpty(held) && id !in Keys(later)
    ensures Recall(LogOf(held, earlier, later, t), id, now, b) == SanitizeAll(Stored(held, id)) <==>
            StillKept(held, id, earlier, later, t, now, b)
  {
    hide Writes, Keys;
    var log := LogOf(held, earlier, later, t);
    if k: nat :| k < |held| && held[k].0 == id {
      OwnIsLastWrite(held, k, earlier, later, t);
      OnlyHit(log, |earlier| + k, id, now, b);
      StoredAt(held, k);
      assert forall j: nat :: j < |held| && held[j].0 == id ==> j == k;
      if Hit(log, |earlier| + k, id, now, b) {
        RecallIsHit(log, |earlier| + k, id, now, b);
      }
    } else {
      assert id !in ByKeys(held);
      UnsetIsNothing(held, id);
      OthersHitEarlier(held, id, earlier, later, t, now, b);
      if p: nat :| Hit(log, p, id, now, b) {
        RecallIsHit(log, p, id, now, b);
        OnlyHit(log, p, id, now, b);
      }
    }
  }

  lemma OthersHitEarlier(held: ByCall, id: string, earlier: seq<Entry<seq<Fields>>>, later: seq<Entry<seq<Fields>>>, t: real, now: real, b: Bounds)
    requires id !in ByKeys(held) && id !in Keys(later)
    ensures forall p: nat :: Hit(LogOf(held, earlier, later, t), p, id, now, b) ==>
              p < |earlier| && LogOf(held, earlier, later, t)[p] == earlier[p]
  {
    LogKeys(held, earlier, later, t);
  }

  lemma LogKeys(held: ByCall, earlier: seq<Entry<seq<Fields>>>, later: seq<Entry<seq<Fields>>>, t: real)
    ensures var log := LogOf(held, earlier, later, t);
            && (forall p :: 0 <= p < |earlier| ==> log[p] == earlier[p])
            && (forall p :: |earlier| <= p < |log| ==> log[p].key in ByKeys(held) + Keys(later))
  {
    var log := LogOf(held, earlier, later, t);
    forall p | |earlier| <= p < |log| ensures log[p].key in ByKeys(held) + Keys(later) {
      if p < |earlier| + |held| {
        assert log[p] == Writes(held, t)[p - |earlier|];
      } else {
        assert log[p] == later[p - |earlier| - |held|];
      }
    }
  }

  /** Reasoning, a call, and what follows can be told apart. */
  lemma {:induction false} RunsAgree(x: seq<Fields>, y: seq<Fields>, c: InputItem, r: seq<InputItem>, q: seq<InputItem>)
    requires c.InputCall?
    ensures ReasoningItems(x) + [c] + r == ReasoningItems(y) + [c] + q <==> x == y && r == q
    decreases |x|
  {
    var one, two := ReasoningItems(x) + [c] + r, ReasoningItems(y) + [c] + q;
    if one == two {
      assert one[0] == two[0];
      if x != [] && y != [] {
        assert one[1..] == ReasoningItems(x[1..]) + [c] + r && two[1..] == ReasoningItems(y[1..]) + [c] + q;
        RunsAgree(x[1..], y[1..], c, r, q);
        assert x == [x[0]] + x[1..] && y == [y[0]] + y[1..];
      } else {
        assert x == [] ==> one[1..] == r;
        assert y == [] ==> two[1..] == q;
      }
    }
  }

  /** A message gets back what was stored for its calls exactly when the cache is still right about each. */
  lemma {:induction false} RecalledIsStoredIff(content: seq<Content>, held: ByCall, earlier: seq<Entry<seq<Fields>>>, later: seq<Entry<seq<Fields>>>, t: real, now: real, b: Bounds)
    requires DistinctKeys(held) && NonEmpty(held)
    requires forall c :: c in content && c.ToolUseContent? ==> c.id !in Keys(later)
    ensures RecalledCalls(content, LogOf(held, earlier, later, t), now, b) == StoredCalls(content, held) <==>
            forall c :: c in content && c.ToolUseContent? ==> StillKept(held, c.id, earlier, later, t, now, b)
  {
    hide LogOf, StillKept, Recall, ReasoningItems, Stored, Keys;
    if content != [] {
      var head, rest := content[0], content[1..];
      var log := LogOf(held, earlier, later, t);
      assert forall c :: c in content <==> c == head || c in rest;
      RecalledIsStoredIff(rest, held, earlier, later, t, now, b);
      if head.ToolUseContent? {
        RecallsStoredIff(held, head.id, earlier, later, t, now, b);
        RunsAgree(Recall(log, head.id, now, b), SanitizeAll(Stored(held, head.id)), InputCall(head.id, head.name, head.input),
                  RecalledCalls(rest, log, now, b), StoredCalls(rest, held));
      } else {
        assert RecalledCalls(content, log, now, b) == RecalledCalls(rest, log, now, b);
        assert StoredCalls(content, held) == StoredCalls(rest, held);
      }
    }
  }

  /** The calls of the message carry the call ids of the output. */
  lemma {:induction false} ContentIds(output: seq<OutputItem>, generated: string)
    requires DistinctIds(CallIds(output))
    ensures forall id :: id in CallIds(output) <==> exists c :: c in Contents(output, generated) && c.ToolUseContent? && c.id == id
  {
    if output != [] {
      IdsTail(output);
      var head, rest := ItemContents(output[0], generated), Contents(output[1..], generated);
      ContentIds(output[1..], generated);
      forall id ensures id in CallIds(output) <==> exists c :: c in Contents(output, generated) && c.ToolUseContent? && c.id == id {
        if output[0].FunctionCallItem? && id == output[0].callId {
          assert head[0] in Contents(output, generated);
        }
        if id in CallIds(output[1..]) {
          var c :| c in rest && c.ToolUseContent? && c.id == id;
          assert c in Contents(output, generated);
        }
      }
    }
  }

  lemma MessageContentIds(output: seq<OutputItem>, generated: string)
    requires DistinctIds(CallIds(output))
    ensures forall id :: id in CallIds(output) <==> exists c :: c in MessageContent(output, generated) && c.ToolUseContent? && c.id == id
  {
    ContentIds(output, generated);
  }

  lemma StoredIsForwarded(output: seq<OutputItem>, generated: string)
    requires DistinctIds(CallIds(output))
    ensures StoredCalls(MessageContent(output, generated), Extract(output)) == Forwarded(output)
  {
    StoredIsCarried(output, [], [], generated);
    CarriedIsForwarded(output, [], []);
    assert [] + output == output;
    assert Forwarded([]) + Carried(output, []) == Carried(output, []);
    assert StoredCalls([Text("")], Extract(output)) == StoredCalls([], Extract(output));
  }

  /**
   * The round trip. For an output with distinct non-empty call ids that no later output reuses,
   * the converted message sent back yields the output's own reasoning and calls in place,
   * sanitised and with only the trailing reasoning run dropped, after the joined text, exactly
   * when the cache is still right about each of its calls.
   */
  lemma ReasoningReturnsIff(output: seq<OutputItem>, generated: string,
                            earlier: seq<Entry<seq<Fields>>>, later: seq<Entry<seq<Fields>>>, t: real, now: real, b: Bounds)
    requires DistinctIds(CallIds(output))
    requires forall id :: id in CallIds(output) ==> id !in Keys(later)
    ensures var content := MessageContent(output, generated);
            AssistantInput(content, earlier + Writes(Extract(output), t) + later, now, b) ==
              (if HasText(content) then [AssistantText(JoinTexts(content))] else [])
              + Forwarded(output)
            <==> forall id :: id in CallIds(output) ==> StillKept(Extract(output), id, earlier, later, t, now, b)
  {
    hide Extract, MessageContent, StillKept, Forwarded, RecalledCalls, StoredCalls, JoinTexts;
    var content, held := MessageContent(output, generated), Extract(output);
    ExtractReady(output);
    MessageContentIds(output, generated);
    RecalledIsStoredIff(content, held, earlier, later, t, now, b);
    StoredIsForwarded(output, generated);
    SameTail(if HasText(content) then [AssistantText(JoinTexts(content))] else [],
             RecalledCalls(content, LogOf(held, earlier, later, t), now, b), Forwarded(output));
  }

  /** The same on the wire, when different values are written as different texts. */
  lemma ReasoningReturnsWrittenIff(dumps: Json -> string, output: seq<OutputItem>, generated: string,
                                   earlier: seq<Entry<seq<Fields>>>, later: seq<Entry<seq<Fields>>>, t: real, now: real, b: Bounds)
    requires forall v: Json, w: Json :: dumps(v) == dumps(w) ==> v == w
    requires DistinctIds(CallIds(output))
    requires forall id :: id in CallIds(output) ==> id !in Keys(later)
    ensures var content := MessageContent(output, generated);
            Written(dumps, AssistantInput(content, earlier + Writes(Extract(output), t) + later, now, b)) ==
              Written(dumps, (if HasText(content) then [AssistantText(JoinTexts(content))] else []) + Forwarded(output))
            <==> forall id :: id in CallIds(output) ==> StillKept(Extract(output), id, earlier, later, t, now, b)
  {
    hide Extract, MessageContent, StillKept, Forwarded, AssistantInput, JoinTexts, Written, HasText, Writes;
    var content := MessageContent(output, generated);
    ReasoningReturnsIff(output, generated, earlier, later, t, now, b);
    WrittenApart(dumps, AssistantInput(content, earlier + Writes(Extract(output), t) + later, now, b),
                 (if HasText(content) then [AssistantText(JoinTexts(content))] else []) + Forwarded(output));
  }

  lemma SameTail(lead: seq<InputItem>, x: seq<InputItem>, y: seq<InputItem>)
    ensures lead + x == lead + y <==> x == y
  {
    if lead + x == lead + y {
      assert (lead + x)[|lead|..] == x && (lead + y)[|lead|..] == y;
    }
  }

  lemma ExtractReady(output: seq<OutputItem>)
    requires DistinctIds(CallIds(output))
    ensures DistinctKeys(Extract(output)) && NonEmpty(Extract(output))
  {
    ExtractDistinct(output, [], []);
    ExtractNonEmpty(output, [], []);
  }

  // ----- the converter of a complete response

  lemma {:induction false} ExtractNonEmpty(output: seq<OutputItem>, held: ByCall, pending: seq<Fields>)
    requires NonEmpty(held)
    ensures NonEmpty(ExtractFrom(output, held, pending))
    decreases |output|
  {
    if output != [] {
      match output[0]
      case ReasoningItem(fields) => ExtractNonEmpty(output[1..], held, pending + [fields]);
      case FunctionCallItem(callId, _, _, _) =>
        if pending != [] && callId != "" {
          SetCallNonEmpty(held, callId, pending);
          ExtractNonEmpty(output[1..], SetCall(held, callId, pending), []);
        } else {
          ExtractNonEmpty(output[1..], held, []);
        }
      case _ => ExtractNonEmpty(output[1..], held, pending);
    }
  }

  lemma {:induction false} SetCallNonEmpty(held: ByCall, id: string, items: seq<Fields>)
    requires items != [] && NonEmpty(held)
    ensures NonEmpty(SetCall(held, id, items))
  {
    if held != [] && held[0].0 != id {
      SetCallNonEmpty(held[1..], id, items);
    }
  }

  lemma WriteNext(held: ByCall, t: real, i: nat, before: seq<Entry<seq<Fields>>>)
    requires i < |held|
    ensures (before + Writes(held, t)[..i]) + [Entry(held[i].0, t, SanitizeAll(held[i].1))] == before + Writes(held, t)[..i + 1]
  {
    hide SanitizeAll;
    LastApart(Writes(held, t)[..i + 1]);
  }

  method StoreReasoning(output: seq<OutputItem>, cache: ReasoningCache, now: real)
    requires cache.Valid() && cache.at <= now
    modifies cache
    ensures cache.Valid() && cache.at <= now
    ensures cache.log == old(cache.log) + Writes(Extract(output), now)
  {
    hide SanitizeAll, ExtractFrom, Writes;
    var found := ExtractReasoningByCallId(output);
    ExtractNonEmpty(output, [], []);
    ghost var before := cache.log;
    var i := 0;
    while i < |found|
      invariant 0 <= i <= |found| == |Writes(found, now)|
      invariant cache.Valid() && cache.at <= now
      invariant cache.log == before + Writes(found, now)[..i]
    {
      cache.Store(found[i].0, found[i].1, now);
      WriteNext(found, now, i, before);
      i := i + 1;
    }
    assert Writes(found, now)[..i] == Writes(found, now);
  }

  method ConvertItem(item: OutputItem, generated: string) returns (blocks: seq<Content>)
    ensures blocks == ItemContents(item, generated)
  {
    blocks := [];
    match item {
      case MessageItem(texts) => blocks := TextContents(texts);
      case FunctionCallItem(callId, itemId, name, arguments) =>
        var id := if callId != "" then callId else if itemId != "" then itemId else generated;
        blocks := [ToolUseContent(id, name, CallInput(arguments))];
      case _ =>
    }
  }

  method ConvertOutput(output: seq<OutputItem>, generated: string) returns (blocks: seq<Content>, hasToolUse: bool)
    ensures blocks == Contents(output, generated) && (hasToolUse <==> CallIds(output) != [])
  {
    blocks, hasToolUse := [], false;
    var i := 0;
    while i < |output|
      invariant 0 <= i <= |output|
      invariant blocks + Contents(output[i..], generated) == Contents(output, generated)
      invariant hasToolUse || CallIds(output[i..]) != [] <==> CallIds(output) != []
    {
      var more := ConvertItem(output[i], generated);
      assert output[i..][1..] == output[i + 1..];
      blocks, hasToolUse := blocks + more, hasToolUse || output[i].FunctionCallItem?;
      i := i + 1;
    }
  }

  /**
   * A complete response: its reasoning goes to the cache, its texts and calls to the message.
   * `generated` stands in for a missing call id, `generatedId` for a missing response id.
   */
  method ConvertResponses(response: Response, id: Option<string>, generated: string, generatedId: string, cache: ReasoningCache, now: real)
    returns (reply: Result<Reply, string>)
    requires cache.Valid() && cache.at <= now
    modifies cache
    ensures cache.Valid()
    ensures response.output == [] ==> reply == Err("No output in OpenAI Responses response") && cache.log == old(cache.log)
    ensures response.output != [] ==>
              && reply.Ok?
              && (id.Some? ==> reply.value.id == id.value) && (id.None? ==> reply.value.id == generatedId)
              && reply.value.content == MessageContent(response.output, generated)
              && (reply.value.stop == MaxTokens <==> response.status == IncompleteStatus("max_output_tokens"))
              && (reply.value.stop == ToolUse <==> reply.value.stop != MaxTokens && CallIds(response.output) != [])
              && reply.value.usage == response.usage
              && cache.log == old(cache.log) + Writes(Extract(response.output), now)
  {
    if response.output == [] {
      return Err("No output in OpenAI Responses response");
    }
    StoreReasoning(response.output, cache, now);
    var blocks, hasToolUse := ConvertOutput(response.output, generated);
    reply := Ok(Reply(id.GetOr(generatedId), if blocks == [] then [Text("")] else blocks,
                      StopReasonOf(response, hasToolUse), response.usage));
  }
}
