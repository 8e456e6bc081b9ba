/**
 * The input-token estimate of a converted request: characters by kind, and a
 * fixed cost per message, tool and image.
 *
 * `dumps` stands for the compact JSON text of a value.
 */
module TokenEstimator {
  import opened Common
  import opened Json

  const MESSAGE_OVERHEAD_TOKENS := 4
  const TOOL_OVERHEAD_TOKENS := 8
  const IMAGE_TOKENS := 1600

  datatype Counts = Counts(ascii: nat, nonAscii: nat, cjk: nat, reasoning: nat, messages: nat, tools: nat, images: nat) {
    function Plus(other: Counts): Counts {
      Counts(ascii + other.ascii, nonAscii + other.nonAscii, cjk + other.cjk, reasoning + other.reasoning,
             messages + other.messages, tools + other.tools, images + other.images)
    }

    /** Characters rounded up per kind, 3.5 and 2 and 1 and 2 to a token, and the overheads. */
    function Total(): nat {
      Sevenths(ascii) + Halves(nonAscii) + cjk + Halves(reasoning)
      + messages * MESSAGE_OVERHEAD_TOKENS + tools * TOOL_OVERHEAD_TOKENS + images * IMAGE_TOKENS
    }
  }

  function Sevenths(n: nat): nat {
    (2 * n + 6) / 7
  }

  function Halves(n: nat): nat {
    (n + 1) / 2
  }

  const NOTHING := Counts(0, 0, 0, 0, 0, 0, 0)

  predicate IsCjk(c: char) {
    || '\U{3000}' <= c <= '\U{30FF}' || '\U{1100}' <= c <= '\U{11FF}' || '\U{3400}' <= c <= '\U{4DBF}'
    || '\U{4E00}' <= c <= '\U{9FFF}' || '\U{F900}' <= c <= '\U{FAFF}' || '\U{AC00}' <= c <= '\U{D7AF}'
    || '\U{FF00}' <= c <= '\U{FFEF}' || '\U{20000}' <= c <= '\U{2FA1F}'
  }

  function OfChar(c: char): Counts {
    if c < '\U{0080}' then NOTHING.(ascii := 1) else if IsCjk(c) then NOTHING.(cjk := 1) else NOTHING.(nonAscii := 1)
  }

  function OfText(text: string): Counts {
    if text == "" then NOTHING else OfText(text[..|text| - 1]).Plus(OfChar(text[|text| - 1]))
  }

  function FieldOf(value: Json, name: string): Option<Json> {
    if value.JObj? && name in value.fields then Some(value.fields[name]) else None
  }

  /** A string's characters; anything else counts nothing. */
  function OfString(value: Option<Json>): Counts {
    if value.Some? && value.value.JStr? then OfText(value.value.chars) else NOTHING
  }

  function OfReasoning(value: Option<Json>): Counts {
    if value.Some? && value.value.JStr? then NOTHING.(reasoning := |value.value.chars|) else NOTHING
  }

  predicate IsImagePart(part: Json) {
    FieldOf(part, "type") == Some(JStr("image_url")) || FieldOf(part, "type") == Some(JStr("input_image"))
  }

  function OfPart(part: Json): Counts {
    if !part.JObj? then NOTHING
    else if IsImagePart(part) then NOTHING.(images := 1)
    else OfString(FieldOf(part, "text"))
  }

  /** What a list counts, item by item. */
  function OfItems(items: seq<Json>, count: Json -> Counts): Counts {
    if items == [] then NOTHING else OfItems(items[..|items| - 1], count).Plus(count(items[|items| - 1]))
  }

  function OfContent(content: Option<Json>): Counts {
    match content
    case Some(JStr(text)) => OfText(text)
    case Some(JArr(parts)) => OfItems(parts, OfPart)
    case _ => NOTHING
  }

  function OfFunctionCall(call: Option<Json>): Counts {
    if call.None? then NOTHING
    else OfString(FieldOf(call.value, "name")).Plus(OfString(FieldOf(call.value, "arguments")))
  }

  function OfToolCall(call: Json): Counts {
    OfFunctionCall(FieldOf(call, "function"))
  }

  function OfChatMessage(message: Json): Counts {
    if !message.JObj? then NOTHING
    else
      NOTHING.(messages := 1).Plus(OfContent(FieldOf(message, "content"))).Plus(
        match FieldOf(message, "tool_calls")
        case Some(JArr(calls)) => OfItems(calls, OfToolCall)
        case _ => NOTHING)
  }

  /** What an input item carries, by its type. */
  function OfInputPayload(item: Json): Counts {
    var kind := FieldOf(item, "type");
    if kind == Some(JStr("reasoning")) then OfReasoning(FieldOf(item, "encrypted_content"))
    else if kind == Some(JStr("function_call")) then OfFunctionCall(Some(item))
    else if kind == Some(JStr("function_call_output")) then OfString(FieldOf(item, "output"))
    else OfContent(FieldOf(item, "content"))
  }

  function OfInputItem(item: Json): Counts {
    if !item.JObj? then NOTHING else NOTHING.(messages := 1).Plus(OfInputPayload(item))
  }

  type Dumps = Json -> string

  function DefinitionOf(tool: Json): Json {
    var function_ := FieldOf(tool, "function");
    var definition := if function_.Some? && function_.value.JObj? then function_.value else tool;
    JObj(map["name" := FieldOf(definition, "name").GetOr(JNull),
             "description" := FieldOf(definition, "description").GetOr(JNull),
             "parameters" := FieldOf(definition, "parameters").GetOr(JNull)])
  }

  function OfTool(dumps: Dumps): Json -> Counts {
    (tool: Json) => if !tool.JObj? then NOTHING else NOTHING.(tools := 1).Plus(OfText(dumps(DefinitionOf(tool))))
  }

  function OfList(value: Option<Json>, count: Json -> Counts): Counts {
    match value
    case Some(JArr(items)) => OfItems(items, count)
    case _ => NOTHING
  }

  function OfInstructions(value: Option<Json>): Counts {
    if value.Some? && value.value.JStr? then NOTHING.(messages := 1).Plus(OfText(value.value.chars)) else NOTHING
  }

  function OfRequest(dumps: Dumps, request: Json): Counts {
    OfInstructions(FieldOf(request, "instructions"))
    .Plus(OfList(FieldOf(request, "messages"), OfChatMessage))
    .Plus(OfList(FieldOf(request, "input"), OfInputItem))
    .Plus(OfList(FieldOf(request, "tools"), OfTool(dumps)))
  }

  function Estimate(dumps: Dumps, request: Json): nat {
    OfRequest(dumps, request).Total()
  }

  /** The counters as they are incremented. */
  class Tally {
    var asciiChars: nat
    var nonAsciiChars: nat
    var cjkChars: nat
    var reasoningChars: nat
    var messages: nat
    var tools: nat
    var images: nat

    constructor ()
      ensures View() == NOTHING
    {
      asciiChars, nonAsciiChars, cjkChars, reasoningChars, messages, tools, images := 0, 0, 0, 0, 0, 0, 0;
    }

    function View(): Counts
      reads this
    {
      Counts(asciiChars, nonAsciiChars, cjkChars, reasoningChars, messages, tools, images)
    }

    method AddText(text: string)
      modifies this
      ensures View() == old(View()).Plus(OfText(text))
    {
      asciiChars := asciiChars + OfText(text).ascii;
      nonAsciiChars := nonAsciiChars + OfText(text).nonAscii;
      cjkChars := cjkChars + OfText(text).cjk;
      TextIsCharacters(text);
    }

    method AddString(value: Option<Json>)
      modifies this
      ensures View() == old(View()).Plus(OfString(value))
    {
      if value.Some? && value.value.JStr? {
        AddText(value.value.chars);
      }
    }

    method AddReasoning(value: Option<Json>)
      modifies this
      ensures View() == old(View()).Plus(OfReasoning(value))
    {
      if value.Some? && value.value.JStr? {
        reasoningChars := reasoningChars + |value.value.chars|;
      }
    }

    method AddPart(part: Json)
      modifies this
      ensures View() == old(View()).Plus(OfPart(part))
    {
      if part.JObj? {
        if IsImagePart(part) {
          images := images + 1;
        } else {
          AddString(FieldOf(part, "text"));
        }
      }
    }

    method AddContent(content: Option<Json>)
      modifies this
      ensures View() == old(View()).Plus(OfContent(content))
    {
      match content {
        case Some(JStr(text)) => AddText(text);
        case Some(JArr(parts)) => AddParts(parts);
        case _ => NothingAdds(View());
      }
    }

    method AddParts(parts: seq<Json>)
      modifies this
      ensures View() == old(View()).Plus(OfItems(parts, OfPart))
    {
      hide Counts.Plus, OfPart, NOTHING;
      NoItems(View(), OfPart);
      var i := 0;
      while i < |parts|
        invariant 0 <= i <= |parts|
        invariant View() == old(View()).Plus(OfItems(parts[..i], OfPart))
      {
        ItemsPush(parts, OfPart, i);
        Regroup(old(View()), OfItems(parts[..i], OfPart), OfPart(parts[i]));
        AddPart(parts[i]);
        i := i + 1;
      }
      assert parts[..i] == parts;
    }

    method AddFunctionCall(call: Option<Json>)
      modifies this
      ensures View() == old(View()).Plus(OfFunctionCall(call))
    {
      if call.Some? {
        AddString(FieldOf(call.value, "name"));
        AddString(FieldOf(call.value, "arguments"));
      }
    }

    method AddToolCalls(calls: seq<Json>)
      modifies this
      ensures View() == old(View()).Plus(OfItems(calls, OfToolCall))
    {
      hide Counts.Plus, OfFunctionCall, NOTHING;
      NoItems(View(), OfToolCall);
      var i := 0;
      while i < |calls|
        invariant 0 <= i <= |calls|
        invariant View() == old(View()).Plus(OfItems(calls[..i], OfToolCall))
      {
        ItemsPush(calls, OfToolCall, i);
        Regroup(old(View()), OfItems(calls[..i], OfToolCall), OfToolCall(calls[i]));
        AddFunctionCall(FieldOf(calls[i], "function"));
        i := i + 1;
      }
      assert calls[..i] == calls;
    }

    method AddChatMessage(message: Json)
      modifies this
      ensures View() == old(View()).Plus(OfChatMessage(message))
    {
      hide Counts.Plus, OfContent, OfItems;
      NothingAdds(View());
      if message.JObj? {
        OneMessage(View());
        messages := messages + 1;
        AddContent(FieldOf(message, "content"));
        ghost var one, content := NOTHING.(messages := 1), OfContent(FieldOf(message, "content"));
        Regroup(old(View()), one, content);
        NothingAdds(View());
        NothingAdds(one.Plus(content));
        match FieldOf(message, "tool_calls") {
          case Some(JArr(calls)) =>
            AddToolCalls(calls);
            Regroup(old(View()), one.Plus(content), OfItems(calls, OfToolCall));
          case _ =>
        }
      }
    }

    method AddChatMessages(value: Option<Json>)
      modifies this
      ensures View() == old(View()).Plus(OfList(value, OfChatMessage))
    {
      hide Counts.Plus, OfChatMessage, NOTHING;
      NoItems(View(), OfChatMessage);
      match value {
        case Some(JArr(items)) =>
          var i := 0;
          while i < |items|
            invariant 0 <= i <= |items|
            invariant View() == old(View()).Plus(OfItems(items[..i], OfChatMessage))
          {
            ItemsPush(items, OfChatMessage, i);
            Regroup(old(View()), OfItems(items[..i], OfChatMessage), OfChatMessage(items[i]));
            AddChatMessage(items[i]);
            i := i + 1;
          }
          assert items[..i] == items;
        case _ =>
      }
    }

    method AddInputItem(item: Json)
      modifies this
      ensures View() == old(View()).Plus(OfInputItem(item))
    {
      hide Counts.Plus, OfContent, OfReasoning, OfString, OfFunctionCall;
      NothingAdds(View());
      if item.JObj? {
        OneMessage(View());
        messages := messages + 1;
        ghost var counted := View();
        var kind := FieldOf(item, "type");
        if kind == Some(JStr("reasoning")) {
          AddReasoning(FieldOf(item, "encrypted_content"));
        } else if kind == Some(JStr("function_call")) {
          AddFunctionCall(Some(item));
        } else if kind == Some(JStr("function_call_output")) {
          AddString(FieldOf(item, "output"));
        } else {
          AddContent(FieldOf(item, "content"));
        }
        Regroup(old(View()), NOTHING.(messages := 1), OfInputPayload(item));
      }
    }

    method AddResponsesInput(value: Option<Json>)
      modifies this
      ensures View() == old(View()).Plus(OfList(value, OfInputItem))
    {
      hide Counts.Plus, OfInputItem, NOTHING;
      NoItems(View(), OfInputItem);
      match value {
        case Some(JArr(items)) =>
          var i := 0;
          while i < |items|
            invariant 0 <= i <= |items|
            invariant View() == old(View()).Plus(OfItems(items[..i], OfInputItem))
          {
            ItemsPush(items, OfInputItem, i);
            Regroup(old(View()), OfItems(items[..i], OfInputItem), OfInputItem(items[i]));
            AddInputItem(items[i]);
            i := i + 1;
          }
          assert items[..i] == items;
        case _ =>
      }
    }

    method AddInstructions(value: Option<Json>)
      modifies this
      ensures View() == old(View()).Plus(OfInstructions(value))
    {
      hide OfText;
      if value.Some? && value.value.JStr? {
        messages := messages + 1;
        AddText(value.value.chars);
      }
    }

    method AddTool(dumps: Dumps, tool: Json)
      modifies this
      ensures View() == old(View()).Plus(OfTool(dumps)(tool))
    {
      hide OfText;
      if tool.JObj? {
        tools := tools + 1;
        AddText(dumps(DefinitionOf(tool)));
      }
    }

    method AddTools(dumps: Dumps, value: Option<Json>)
      modifies this
      ensures View() == old(View()).Plus(OfList(value, OfTool(dumps)))
    {
      hide Counts.Plus, OfTool, NOTHING;
      NoItems(View(), OfTool(dumps));
      match value {
        case Some(JArr(items)) =>
          var i := 0;
          while i < |items|
            invariant 0 <= i <= |items|
            invariant View() == old(View()).Plus(OfItems(items[..i], OfTool(dumps)))
          {
            ItemsPush(items, OfTool(dumps), i);
            Regroup(old(View()), OfItems(items[..i], OfTool(dumps)), OfTool(dumps)(items[i]));
            AddTool(dumps, items[i]);
            i := i + 1;
          }
          assert items[..i] == items;
        case _ =>
      }
    }
  }

  lemma Regroup(a: Counts, b: Counts, c: Counts)
    ensures a.Plus(b).Plus(c) == a.Plus(b.Plus(c))
  {
  }

  lemma NothingAdds(a: Counts)
    ensures a.Plus(NOTHING) == a
  {
  }

  lemma NothingFirst(a: Counts)
    ensures NOTHING.Plus(a) == a
  {
  }

  lemma NoItems(a: Counts, count: Json -> Counts)
    ensures a.Plus(OfItems([], count)) == a && a.Plus(NOTHING) == a
  {
  }

  lemma OneMessage(a: Counts)
    ensures a.(messages := a.messages + 1) == a.Plus(NOTHING.(messages := 1))
  {
  }

  method EstimateRequest(dumps: Dumps, request: Json) returns (estimate: nat)
    ensures estimate == Estimate(dumps, request)
  {
    hide Counts.Plus, OfText, OfList, OfInstructions, NOTHING;
    var tally := new Tally();
    tally.AddInstructions(FieldOf(request, "instructions"));
    NothingFirst(OfInstructions(FieldOf(request, "instructions")));
    tally.AddChatMessages(FieldOf(request, "messages"));
    tally.AddResponsesInput(FieldOf(request, "input"));
    tally.AddTools(dumps, FieldOf(request, "tools"));
    estimate := tally.View().Total();
  }

  lemma {:induction false} TextIsCharacters(text: string)
    ensures var c := OfText(text);
            c.ascii + c.nonAscii + c.cjk == |text| && c == Counts(c.ascii, c.nonAscii, c.cjk, 0, 0, 0, 0)
  {
    if text != "" {
      TextIsCharacters(text[..|text| - 1]);
    }
  }

  lemma ItemsPush(items: seq<Json>, count: Json -> Counts, i: nat)
    requires i < |items|
    ensures OfItems(items[..i + 1], count) == OfItems(items[..i], count).Plus(count(items[i]))
  {
    assert items[..i + 1][..i] == items[..i];
  }

  lemma {:induction false} ItemsConcat(a: seq<Json>, b: seq<Json>, count: Json -> Counts)
    ensures OfItems(a + b, count) == OfItems(a, count).Plus(OfItems(b, count))
  {
    if b == [] {
      assert a + b == a;
      NothingAdds(OfItems(a, count));
    } else {
      hide Counts.Plus, NOTHING;
      var front, last := b[..|b| - 1], b[|b| - 1];
      ItemsConcat(a, front, count);
      assert a + b == (a + front) + [last] && (a + b)[..|a + front|] == a + front;
      ItemsPush(a + b, count, |a + front|);
      ItemsPush(b, count, |front|);
      assert (a + b)[..|a + b|] == a + b && b[..|b|] == b;
      Regroup(OfItems(a, count), OfItems(front, count), count(last));
    }
  }

  /** Rounding up separately costs at most one token for each of the three rounded kinds. */
  lemma TotalOfSum(a: Counts, b: Counts)
    ensures a.Plus(b).Total() <= a.Total() + b.Total() <= a.Plus(b).Total() + 3
  {
    hide Sevenths, Halves;
    SeventhsApart(a.ascii, b.ascii);
    HalvesApart(a.nonAscii, b.nonAscii);
    HalvesApart(a.reasoning, b.reasoning);
  }

  lemma SeventhsApart(n: nat, m: nat)
    ensures Sevenths(n + m) <= Sevenths(n) + Sevenths(m) <= Sevenths(n + m) + 1
  {
  }

  lemma HalvesApart(n: nat, m: nat)
    ensures Halves(n + m) <= Halves(n) + Halves(m) <= Halves(n + m) + 1
  {
  }

  /** The same request with another list of messages. */
  function WithMessages(request: Json, key: string, items: seq<Json>): Json {
    JObj((if request.JObj? then request.fields else map[])[key := JArr(items)])
  }

  const EMPTY_REQUEST := JObj(map[])

  /** How the items under a key are counted. */
  function CountOf(key: string): Json -> Counts {
    if key == "messages" then OfChatMessage else OfInputItem
  }

  lemma AloneCounts(dumps: Dumps, key: string, items: seq<Json>)
    requires key == "messages" || key == "input"
    ensures OfRequest(dumps, WithMessages(EMPTY_REQUEST, key, items))
            == OfItems(items, CountOf(key))
  {
    hide Counts.Plus, OfItems, NOTHING;
    var counted := OfItems(items, CountOf(key));
    var alone := WithMessages(EMPTY_REQUEST, key, items);
    assert alone.fields.Keys == {key};
    NothingAdds(NOTHING);
    NothingAdds(counted);
    NothingFirst(counted);
  }

  /** Messages estimated apart cost at least what they cost added to a request, and at most three tokens more. */
  lemma EstimateOfJoined(dumps: Dumps, request: Json, key: string, a: seq<Json>, b: seq<Json>)
    requires key == "messages" || key == "input"
    ensures var joined, first := Estimate(dumps, WithMessages(request, key, a + b)), Estimate(dumps, WithMessages(request, key, a));
            var second := Estimate(dumps, WithMessages(EMPTY_REQUEST, key, b));
            joined <= first + second <= joined + 3
  {
    hide OfRequest, OfItems, Counts.Plus, Counts.Total;
    var count := CountOf(key);
    JoinedCounts(dumps, request, key, a, b);
    AloneCounts(dumps, key, b);
    TotalOfSum(OfRequest(dumps, WithMessages(request, key, a)), OfItems(b, count));
  }

  lemma JoinedCounts(dumps: Dumps, request: Json, key: string, a: seq<Json>, b: seq<Json>)
    requires key == "messages" || key == "input"
    ensures var count := CountOf(key);
            OfRequest(dumps, WithMessages(request, key, a + b)) == OfRequest(dumps, WithMessages(request, key, a)).Plus(OfItems(b, count))
  {
    hide Counts.Plus, OfItems, OfInstructions, OfChatMessage, OfInputItem, OfTool, NOTHING;
    var count := CountOf(key);
    ItemsConcat(a, b, count);
    var one := WithMessages(request, key, a);
    var first, other, tools := OfInstructions(FieldOf(one, "instructions")),
                               OfList(FieldOf(one, if key == "messages" then "input" else "messages"), if key == "messages" then OfInputItem else OfChatMessage),
                               OfList(FieldOf(one, "tools"), OfTool(dumps));
    OthersSame(request, key, a, a + b, "instructions");
    OthersSame(request, key, a, a + b, "tools");
    OthersSame(request, key, a, a + b, if key == "messages" then "input" else "messages");
    Reorder(first, OfItems(a, count), OfItems(b, count), other, tools);
  }

  lemma OthersSame(request: Json, key: string, a: seq<Json>, b: seq<Json>, name: string)
    requires name != key
    ensures FieldOf(WithMessages(request, key, a), name) == FieldOf(WithMessages(request, key, b), name)
    ensures FieldOf(WithMessages(request, key, a), key) == Some(JArr(a)) && FieldOf(WithMessages(request, key, b), key) == Some(JArr(b))
  {
  }

  lemma Reorder(first: Counts, a: Counts, b: Counts, other: Counts, tools: Counts)
    ensures first.Plus(a.Plus(b)).Plus(other).Plus(tools) == first.Plus(a).Plus(other).Plus(tools).Plus(b)
    ensures first.Plus(other).Plus(a.Plus(b)).Plus(tools) == first.Plus(other).Plus(a).Plus(tools).Plus(b)
  {
  }

  /** More messages never make the estimate smaller. */
  lemma EstimateGrows(dumps: Dumps, request: Json, key: string, a: seq<Json>, b: seq<Json>)
    requires key == "messages" || key == "input"
    ensures Estimate(dumps, WithMessages(request, key, a)) <= Estimate(dumps, WithMessages(request, key, a + b))
  {
    hide OfRequest, OfItems;
    var count := CountOf(key);
    JoinedCounts(dumps, request, key, a, b);
    TotalGrows(OfRequest(dumps, WithMessages(request, key, a)), OfItems(b, count));
  }

  lemma TotalGrows(a: Counts, b: Counts)
    ensures a.Total() <= a.Plus(b).Total()
  {
  }
}
