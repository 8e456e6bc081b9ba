/**
 * What the estimate of a request charges for: the texts in it, the encrypted
 * reasoning, and a fixed overhead for each message, tool and image. The bill
 * is written down from the wire shapes; the counters of the estimator are
 * proved to be its sums.
 */
module TokenBill {
  import opened Common
  import opened Json
  import opened TokenEstimator

  /** Texts to be counted by characters, characters of encrypted reasoning, and things with a fixed price. */
  datatype Bill = Bill(texts: seq<string>, sealedChars: nat, messages: nat, tools: nat, images: nat) {
    function And(more: Bill): Bill {
      Bill(texts + more.texts, sealedChars + more.sealedChars, messages + more.messages, tools + more.tools, images + more.images)
    }
  }

  const FREE := Bill([], 0, 0, 0, 0)
  const ONE_MESSAGE := Bill([], 0, 1, 0, 0)
  const ONE_TOOL := Bill([], 0, 0, 1, 0)
  const ONE_IMAGE := Bill([], 0, 0, 0, 1)

  predicate Has(value: Json, key: string) {
    value.JObj? && key in value.fields
  }

  predicate IsKind(value: Json, kind: string) {
    Has(value, "type") && value.fields["type"] == JStr(kind)
  }

  function Text(value: Json, key: string): Bill {
    if Has(value, key) && value.fields[key].JStr? then FREE.(texts := [value.fields[key].chars]) else FREE
  }

  function All(items: seq<Json>, bill: Json -> Bill): Bill {
    if items == [] then FREE else All(items[..|items| - 1], bill).And(bill(items[|items| - 1]))
  }

  function List(value: Json, key: string, bill: Json -> Bill): Bill {
    if Has(value, key) && value.fields[key].JArr? then All(value.fields[key].items, bill) else FREE
  }

  function PartBill(part: Json): Bill {
    if IsKind(part, "image_url") || IsKind(part, "input_image") then ONE_IMAGE else Text(part, "text")
  }

  /** Content is a string, or a list of parts. */
  function ContentBill(message: Json): Bill {
    Text(message, "content").And(List(message, "content", PartBill))
  }

  function CallBill(call: Json): Bill {
    Text(call, "name").And(Text(call, "arguments"))
  }

  function ToolCallBill(call: Json): Bill {
    if Has(call, "function") then CallBill(call.fields["function"]) else FREE
  }

  function ChatBill(message: Json): Bill {
    if !message.JObj? then FREE else ONE_MESSAGE.And(ContentBill(message)).And(List(message, "tool_calls", ToolCallBill))
  }

  function InputBill(item: Json): Bill {
    if !item.JObj? then FREE
    else
      ONE_MESSAGE.And(
        if IsKind(item, "reasoning") then
          (if Has(item, "encrypted_content") && item.fields["encrypted_content"].JStr?
           then FREE.(sealedChars := |item.fields["encrypted_content"].chars|) else FREE)
        else if IsKind(item, "function_call") then CallBill(item)
        else if IsKind(item, "function_call_output") then Text(item, "output")
        else ContentBill(item))
  }

  function ValueAt(value: Json, key: string): Json {
    if Has(value, key) then value.fields[key] else JNull
  }

  /** A tool is charged for the text of its name, description and parameters, wherever its definition stands. */
  function DefinitionText(dumps: Dumps, tool: Json): string {
    var definition := if ValueAt(tool, "function").JObj? then ValueAt(tool, "function") else tool;
    dumps(JObj(map["name" := ValueAt(definition, "name"), "description" := ValueAt(definition, "description"),
                   "parameters" := ValueAt(definition, "parameters")]))
  }

  function ToolBill(dumps: Dumps): Json -> Bill {
    (tool: Json) => if tool.JObj? then ONE_TOOL.And(FREE.(texts := [DefinitionText(dumps, tool)])) else FREE
  }

  function RequestBill(dumps: Dumps, request: Json): Bill {
    (if Has(request, "instructions") && request.fields["instructions"].JStr? then ONE_MESSAGE.And(Text(request, "instructions")) else FREE)
    .And(List(request, "messages", ChatBill)).And(List(request, "input", InputBill)).And(List(request, "tools", ToolBill(dumps)))
  }

  // ----- counting the characters

  predicate IsDense(c: char) {
    || '\U{3000}' <= c <= '\U{303F}' || '\U{3040}' <= c <= '\U{309F}' || '\U{30A0}' <= c <= '\U{30FF}'
    || '\U{1100}' <= c <= '\U{11FF}' || '\U{3400}' <= c <= '\U{4DBF}' || '\U{4E00}' <= c <= '\U{9FFF}'
    || '\U{F900}' <= c <= '\U{FAFF}' || '\U{AC00}' <= c <= '\U{D7AF}' || '\U{FF00}' <= c <= '\U{FFEF}'
    || '\U{20000}' <= c <= '\U{2FA1F}'
  }

  function CharsIn(text: string, which: char -> bool): nat {
    if text == "" then 0 else CharsIn(text[..|text| - 1], which) + (if which(text[|text| - 1]) then 1 else 0)
  }

  function Chars(texts: seq<string>, which: char -> bool): nat {
    if texts == [] then 0 else CharsIn(texts[0], which) + Chars(texts[1..], which)
  }

  predicate Ascii(c: char) {
    c as int <= 127
  }

  predicate Charges(c: Counts, b: Bill) {
    && c.ascii == Chars(b.texts, Ascii)
    && c.cjk == Chars(b.texts, (ch: char) => !Ascii(ch) && IsDense(ch))
    && c.nonAscii == Chars(b.texts, (ch: char) => !Ascii(ch) && !IsDense(ch))
    && c.reasoning == b.sealedChars && c.messages == b.messages && c.tools == b.tools && c.images == b.images
  }

  lemma {:induction false} CharsConcat(a: seq<string>, b: seq<string>, which: char -> bool)
    ensures Chars(a + b, which) == Chars(a, which) + Chars(b, which)
  {
    if a == [] {
      NoneAdded(b);
    } else {
      assert (a + b)[1..] == a[1..] + b;
      CharsConcat(a[1..], b, which);
    }
  }

  lemma ChargesAnd(c: Counts, b: Bill, more: Counts, extra: Bill)
    requires Charges(c, b) && Charges(more, extra)
    ensures Charges(c.Plus(more), b.And(extra))
  {
    hide Chars;
    CharsConcat(b.texts, extra.texts, Ascii);
    CharsConcat(b.texts, extra.texts, (ch: char) => !Ascii(ch) && IsDense(ch));
    CharsConcat(b.texts, extra.texts, (ch: char) => !Ascii(ch) && !IsDense(ch));
  }

  lemma ChargesNothing()
    ensures Charges(NOTHING, FREE) && Charges(NOTHING.(messages := 1), ONE_MESSAGE)
    ensures Charges(NOTHING.(tools := 1), ONE_TOOL) && Charges(NOTHING.(images := 1), ONE_IMAGE)
  {
  }

  lemma {:induction false} ChargesText(text: string)
    ensures Charges(OfText(text), FREE.(texts := [text]))
  {
    TextChars(text);
    OneText(text, Ascii);
    OneText(text, (ch: char) => !Ascii(ch) && IsDense(ch));
    OneText(text, (ch: char) => !Ascii(ch) && !IsDense(ch));
    TextIsCharacters(text);
  }

  lemma OneText(text: string, which: char -> bool)
    ensures Chars([text], which) == CharsIn(text, which)
  {
    assert [text][1..] == [];
  }

  lemma {:induction false} TextChars(text: string)
    ensures OfText(text).ascii == CharsIn(text, Ascii)
    ensures OfText(text).cjk == CharsIn(text, (ch: char) => !Ascii(ch) && IsDense(ch))
    ensures OfText(text).nonAscii == CharsIn(text, (ch: char) => !Ascii(ch) && !IsDense(ch))
  {
    if text != "" {
      TextChars(text[..|text| - 1]);
      OneChar(text[|text| - 1]);
    }
  }

  lemma OneChar(c: char)
    ensures OfChar(c) == if Ascii(c) then NOTHING.(ascii := 1) else if IsDense(c) then NOTHING.(cjk := 1) else NOTHING.(nonAscii := 1)
  {
  }

  lemma ChargesString(value: Json, key: string)
    ensures Charges(OfString(FieldOf(value, key)), Text(value, key))
  {
    hide Charges;
    ChargesNothing();
    if Has(value, key) && value.fields[key].JStr? {
      ChargesText(value.fields[key].chars);
    }
  }

  lemma {:induction false} ChargesAll(items: seq<Json>, count: Json -> Counts, bill: Json -> Bill)
    requires forall item :: Charges(count(item), bill(item))
    ensures Charges(OfItems(items, count), All(items, bill))
  {
    hide Charges, Counts.Plus, Bill.And;
    if items == [] {
      ChargesNothing();
    } else {
      var n := |items| - 1;
      ChargesAll(items[..n], count, bill);
      ChargesAnd(OfItems(items[..n], count), All(items[..n], bill), count(items[n]), bill(items[n]));
    }
  }

  lemma ChargesList(value: Json, key: string, count: Json -> Counts, bill: Json -> Bill)
    requires forall item :: Charges(count(item), bill(item))
    ensures Charges(OfList(FieldOf(value, key), count), List(value, key, bill))
  {
    hide Charges, OfItems, All;
    ChargesNothing();
    if Has(value, key) && value.fields[key].JArr? {
      ChargesAll(value.fields[key].items, count, bill);
    }
  }

  lemma ChargesPart(part: Json)
    ensures Charges(OfPart(part), PartBill(part))
  {
    hide Charges, OfString, Text;
    ChargesNothing();
    ChargesString(part, "text");
    NoText(part, "text");
  }

  lemma NoText(value: Json, key: string)
    ensures !value.JObj? ==> Text(value, key) == FREE
  {
  }

  lemma ContentParts(message: Json)
    ensures var content := FieldOf(message, "content");
            match content
            case Some(JStr(text)) => OfContent(content) == OfText(text) && ContentBill(message) == FREE.(texts := [text])
            case Some(JArr(parts)) => OfContent(content) == OfItems(parts, OfPart) && ContentBill(message) == All(parts, PartBill)
            case _ => OfContent(content) == NOTHING && ContentBill(message) == FREE
  {
    hide OfItems, All, OfText, OfPart, PartBill, Bill.And;
    FreeAdds(Text(message, "content"));
    FreeAdds(List(message, "content", PartBill));
  }

  lemma ChargesContent(message: Json)
    ensures Charges(OfContent(FieldOf(message, "content")), ContentBill(message))
  {
    hide Charges, OfItems, All, OfText, OfPart, PartBill, OfContent, ContentBill;
    ContentParts(message);
    match FieldOf(message, "content")
    case Some(JStr(text)) => ChargesText(text);
    case Some(JArr(parts)) =>
      forall part ensures Charges(OfPart(part), PartBill(part)) {
        ChargesPart(part);
      }
      ChargesAll(parts, OfPart, PartBill);
    case _ => ChargesNothing();
  }

  lemma FreeAdds(b: Bill)
    ensures b.And(FREE) == b && FREE.And(b) == b
  {
  }

  lemma ChargesCall(call: Json)
    ensures Charges(OfFunctionCall(Some(call)), CallBill(call))
  {
    hide Charges, OfString, Text, Counts.Plus, Bill.And;
    ChargesString(call, "name");
    ChargesString(call, "arguments");
    ChargesAnd(OfString(FieldOf(call, "name")), Text(call, "name"), OfString(FieldOf(call, "arguments")), Text(call, "arguments"));
  }

  lemma ChargesToolCall(call: Json)
    ensures Charges(OfToolCall(call), ToolCallBill(call))
  {
    hide Charges, OfFunctionCall, CallBill;
    if Has(call, "function") {
      ChargesCall(call.fields["function"]);
    } else {
      ChargesNothing();
      NoCall();
    }
  }

  lemma NoCall()
    ensures OfFunctionCall(None) == NOTHING
  {
  }

  lemma ChargesChat(message: Json)
    ensures Charges(OfChatMessage(message), ChatBill(message))
  {
    hide Charges, OfItems, OfContent, ContentBill, Counts.Plus, Bill.And, OfToolCall, ToolCallBill, List;
    ChargesNothing();
    if message.JObj? {
      forall call ensures Charges(OfToolCall(call), ToolCallBill(call)) {
        ChargesToolCall(call);
      }
      var content, calls := OfContent(FieldOf(message, "content")), OfList(FieldOf(message, "tool_calls"), OfToolCall);
      ChargesContent(message);
      ChargesList(message, "tool_calls", OfToolCall, ToolCallBill);
      ChargesAnd(NOTHING.(messages := 1), ONE_MESSAGE, content, ContentBill(message));
      ChargesAnd(NOTHING.(messages := 1).Plus(content), ONE_MESSAGE.And(ContentBill(message)), calls, List(message, "tool_calls", ToolCallBill));
    }
  }

  lemma ChargesInput(item: Json)
    ensures Charges(OfInputItem(item), InputBill(item))
  {
    hide OfContent, ContentBill, OfFunctionCall, CallBill, OfString, Text, Counts.Plus, Bill.And, Charges, OfInputPayload;
    ChargesNothing();
    if item.JObj? {
      var payload :=
        if IsKind(item, "reasoning") then
          (if Has(item, "encrypted_content") && item.fields["encrypted_content"].JStr?
           then FREE.(sealedChars := |item.fields["encrypted_content"].chars|) else FREE)
        else if IsKind(item, "function_call") then CallBill(item)
        else if IsKind(item, "function_call_output") then Text(item, "output")
        else ContentBill(item);
      ChargesPayload(item, payload);
      ChargesAnd(NOTHING.(messages := 1), ONE_MESSAGE, OfInputPayload(item), payload);
    }
  }

  lemma ChargesPayload(item: Json, payload: Bill)
    requires payload ==
             if IsKind(item, "reasoning") then
               (if Has(item, "encrypted_content") && item.fields["encrypted_content"].JStr?
                then FREE.(sealedChars := |item.fields["encrypted_content"].chars|) else FREE)
             else if IsKind(item, "function_call") then CallBill(item)
             else if IsKind(item, "function_call_output") then Text(item, "output")
             else ContentBill(item)
    ensures Charges(OfInputPayload(item), payload)
  {
    hide OfContent, ContentBill, OfFunctionCall, CallBill, OfString, Text, Chars;
    if IsKind(item, "reasoning") {
      ChargesNothing();
    } else if IsKind(item, "function_call") {
      ChargesCall(item);
    } else if IsKind(item, "function_call_output") {
      ChargesString(item, "output");
    } else {
      ChargesContent(item);
    }
  }

  lemma ValueIsField(value: Json, key: string)
    ensures FieldOf(value, key).GetOr(JNull) == ValueAt(value, key)
    ensures FieldOf(value, key).Some? ==> FieldOf(value, key).value == ValueAt(value, key)
    ensures FieldOf(value, key).None? ==> ValueAt(value, key) == JNull
  {
  }

  lemma ToolParts(dumps: Dumps, tool: Json)
    ensures dumps(DefinitionOf(tool)) == DefinitionText(dumps, tool)
  {
    hide FieldOf, ValueAt;
    ValueIsField(tool, "function");
    var definition := if ValueAt(tool, "function").JObj? then ValueAt(tool, "function") else tool;
    ValueIsField(definition, "name");
    ValueIsField(definition, "description");
    ValueIsField(definition, "parameters");
  }

  lemma ChargesTool(dumps: Dumps, tool: Json)
    ensures Charges(OfTool(dumps)(tool), ToolBill(dumps)(tool))
  {
    hide Charges, OfText, Counts.Plus, Bill.And, DefinitionOf, DefinitionText;
    ToolParts(dumps, tool);
    ChargesNothing();
    if tool.JObj? {
      var text := dumps(DefinitionOf(tool));
      ChargesText(text);
      ChargesAnd(NOTHING.(tools := 1), ONE_TOOL, OfText(text), FREE.(texts := [text]));
    }
  }

  lemma ChargesInstructions(request: Json)
    ensures Charges(OfInstructions(FieldOf(request, "instructions")),
                    if Has(request, "instructions") && request.fields["instructions"].JStr?
                    then ONE_MESSAGE.And(Text(request, "instructions")) else FREE)
  {
    hide Charges, OfText, Counts.Plus, Bill.And;
    ChargesNothing();
    if Has(request, "instructions") && request.fields["instructions"].JStr? {
      ChargesText(request.fields["instructions"].chars);
      ChargesAnd(NOTHING.(messages := 1), ONE_MESSAGE, OfText(request.fields["instructions"].chars), Text(request, "instructions"));
    }
  }

  lemma RequestIsCharged(dumps: Dumps, request: Json)
    ensures Charges(OfRequest(dumps, request), RequestBill(dumps, request))
  {
    hide Charges, Counts.Plus, Bill.And, OfList, List, OfInstructions, OfChatMessage, OfInputItem, ChatBill, InputBill, OfTool, ToolBill, Text;
    var instructions := if Has(request, "instructions") && request.fields["instructions"].JStr?
                        then ONE_MESSAGE.And(Text(request, "instructions")) else FREE;
    ChargesInstructions(request);
    forall item ensures Charges(OfChatMessage(item), ChatBill(item)) { ChargesChat(item); }
    forall item ensures Charges(OfInputItem(item), InputBill(item)) { ChargesInput(item); }
    forall item ensures Charges(OfTool(dumps)(item), ToolBill(dumps)(item)) { ChargesTool(dumps, item); }
    ChargesList(request, "messages", OfChatMessage, ChatBill);
    ChargesList(request, "input", OfInputItem, InputBill);
    ChargesList(request, "tools", OfTool(dumps), ToolBill(dumps));
    var one, two, three, four := OfInstructions(FieldOf(request, "instructions")), OfList(FieldOf(request, "messages"), OfChatMessage),
                                 OfList(FieldOf(request, "input"), OfInputItem), OfList(FieldOf(request, "tools"), OfTool(dumps));
    ChargesAnd(one, instructions, two, List(request, "messages", ChatBill));
    ChargesAnd(one.Plus(two), instructions.And(List(request, "messages", ChatBill)), three, List(request, "input", InputBill));
    ChargesAnd(one.Plus(two).Plus(three), instructions.And(List(request, "messages", ChatBill)).And(List(request, "input", InputBill)),
               four, List(request, "tools", ToolBill(dumps)));
  }

  /** The least whole number of tokens that holds so many characters at a rate of `chars` to `tokens`. */
  predicate HoldsLeast(whole: int, characters: nat, chars: nat, tokens: nat) {
    chars * whole >= tokens * characters && chars * (whole - 1) < tokens * characters
  }

  /**
   * The estimate of a request: 3.5 ASCII characters, 2 other ones, 1 Chinese, Japanese or Korean
   * one, or 2 of encrypted reasoning to the token, each kind rounded up, and 4 tokens for every
   * message, 8 for every tool and 1600 for every image.
   */
  lemma EstimateMeans(dumps: Dumps, request: Json) returns (ascii: int, other: int, reasoning: int)
    ensures var b := RequestBill(dumps, request);
            && HoldsLeast(ascii, Chars(b.texts, Ascii), 7, 2)
            && HoldsLeast(other, Chars(b.texts, (ch: char) => !Ascii(ch) && !IsDense(ch)), 2, 1)
            && HoldsLeast(reasoning, b.sealedChars, 2, 1)
            && Estimate(dumps, request)
                 == ascii + other + Chars(b.texts, (ch: char) => !Ascii(ch) && IsDense(ch)) + reasoning
                    + 4 * b.messages + 8 * b.tools + 1600 * b.images
  {
    hide OfRequest, RequestBill, Chars, Sevenths, Halves;
    RequestIsCharged(dumps, request);
    var c := OfRequest(dumps, request);
    ascii, other, reasoning := Sevenths(c.ascii), Halves(c.nonAscii), Halves(c.reasoning);
    SeventhsMean(c.ascii);
    HalvesMean(c.nonAscii);
    HalvesMean(c.reasoning);
  }

  lemma SeventhsMean(n: nat)
    ensures HoldsLeast(Sevenths(n), n, 7, 2)
  {
  }

  lemma HalvesMean(n: nat)
    ensures HoldsLeast(Halves(n), n, 2, 1)
  {
  }
}
