/**
 * The message loop of the chat request converter.
 *
 * `Plan` says which messages end up in which turn of the output and in what
 * order; `Render` turns a plan into OpenAI messages. The loop itself works on
 * the messages directly, editing the last one in place; it is proved to
 * produce the rendered plan.
 */
module RequestConverter {
  import opened Common
  import opened Json
  import opened Text

  datatype Role = User | Assistant | System

  datatype Block =
    | TextBlock(text: string)
    | ImageBlock(url: Option<string>)          // the data URL of a base64 image, None for any other source
    | ToolUseBlock(id: string, name: string, input: Json)
    | ToolResultBlock(id: string, text: string) // its content, normalised to text
    | ToolAdditionBlock

  datatype Content = Plain(text: string) | Blocks(blocks: seq<Block>)

  datatype Message = Message(role: Role, content: Content)

  datatype Part = TextPart(text: string) | ImagePart(url: string)

  datatype UserContent = UserText(text: string) | UserParts(parts: seq<Part>)

  datatype Call = Call(id: string, name: string, input: Json)

  datatype OpenAiMessage =
    | SystemMessage(text: string)
    | UserMessage(content: UserContent)
    | AssistantMessage(said: Option<string>, calls: seq<Call>)
    | ToolMessage(id: string, text: string)

  // ----- text

  function Join(texts: seq<string>): string {
    if texts == [] then ""
    else if |texts| == 1 then texts[0]
    else texts[0] + "\n\n" + Join(texts[1..])
  }

  function TextsOf(blocks: seq<Block>): seq<string> {
    if blocks == [] then []
    else (if blocks[0].TextBlock? then [blocks[0].text] else []) + TextsOf(blocks[1..])
  }

  function SystemText(content: Content): string {
    match content
    case Plain(text) => Strip(text)
    case Blocks(blocks) => Strip(Join(TextsOf(blocks)))
  }

  // ----- one message

  function PartsOf(blocks: seq<Block>): seq<Part> {
    if blocks == [] then [] else
    (match blocks[0]
     case TextBlock(text) => [TextPart(text)]
     case ImageBlock(Some(url)) => [ImagePart(url)]
     case _ => [])
    + PartsOf(blocks[1..])
  }

  function ConvertUser(content: Content): UserContent {
    match content
    case Plain(text) => UserText(text)
    case Blocks(blocks) =>
      var parts := PartsOf(blocks);
      if |parts| == 1 && parts[0].TextPart? then UserText(parts[0].text) else UserParts(parts)
  }

  function Concat(texts: seq<string>): string {
    if texts == [] then "" else texts[0] + Concat(texts[1..])
  }

  function CallsOf(blocks: seq<Block>): seq<Call> {
    if blocks == [] then []
    else (if blocks[0].ToolUseBlock? then [Call(blocks[0].id, blocks[0].name, blocks[0].input)] else []) + CallsOf(blocks[1..])
  }

  function ConvertAssistant(content: Content): OpenAiMessage {
    match content
    case Plain(text) => AssistantMessage(Some(text), [])
    case Blocks(blocks) =>
      AssistantMessage(if TextsOf(blocks) != [] then Some(Concat(TextsOf(blocks))) else None, CallsOf(blocks))
  }

  /** One tool message per tool result, in order. */
  function ToolMessages(content: Content): seq<OpenAiMessage> {
    if content.Plain? then [] else ResultsOf(content.blocks)
  }

  function ResultsOf(blocks: seq<Block>): seq<OpenAiMessage> {
    if blocks == [] then []
    else (if blocks[0].ToolResultBlock? then [ToolMessage(blocks[0].id, blocks[0].text)] else []) + ResultsOf(blocks[1..])
  }

  predicate HasToolResult(m: Message) {
    m.role == User && m.content.Blocks? && ResultsOf(m.content.blocks) != []
  }

  predicate HasVisibleContent(content: UserContent) {
    match content
    case UserText(text) => Strip(text) != ""
    case UserParts(parts) => exists k :: 0 <= k < |parts| && (parts[k].ImagePart? || Strip(parts[k].text) != "")
  }

  function AppendText(content: UserContent, text: string): UserContent {
    match content
    case UserText(own) => UserText(if own != "" then own + "\n\n" + text else text)
    case UserParts(parts) => UserParts(parts + [TextPart(text)])
  }

  function PrependText(content: UserContent, text: string): UserContent {
    match content
    case UserText(own) => UserText(if own != "" then text + "\n\n" + own else text)
    case UserParts(parts) => UserParts([TextPart(text)] + parts)
  }

  // ----- the plan

  /** A turn of the output, by the messages that went into it. */
  datatype Turn =
    | TopTurn                                                      // the top-level system prompt
    | UserTurn(lead: seq<nat>, own: Option<nat>, trail: seq<nat>)  // system texts before, the user message, system texts after
    | AssistantTurn(k: nat)
    | ToolTurn(k: nat)                                             // the tool results of message k

  datatype PlanState = PlanState(turns: seq<Turn>, pending: seq<nat>)

  predicate EndsWithUser(turns: seq<Turn>) {
    turns != [] && turns[|turns| - 1].UserTurn?
  }

  predicate AnswersCall(messages: seq<Message>, i: nat) {
    i + 1 < |messages| && HasToolResult(messages[i + 1])
  }

  function Flush(st: PlanState): seq<Turn> {
    if st.pending != [] then st.turns + [UserTurn(st.pending, None, [])] else st.turns
  }

  /** The turns made of an assistant message and the tool results right after it. */
  function AssistantTurns(messages: seq<Message>, i: nat): seq<Turn>
    requires i < |messages|
  {
    if AnswersCall(messages, i)
    then [AssistantTurn(i), ToolTurn(i + 1)]
         + (if HasVisibleContent(ConvertUser(messages[i + 1].content)) then [UserTurn([], Some(i + 1), [])] else [])
    else [AssistantTurn(i)]
  }

  /** What the loop does at message `i`, and where it goes on. */
  function Step(messages: seq<Message>, i: nat, st: PlanState): (PlanState, nat)
    requires i < |messages|
  {
    match messages[i].role
    case User => (PlanState(st.turns + [UserTurn(st.pending, Some(i), [])], []), i + 1)
    case System =>
      if SystemText(messages[i].content) == "" then (st, i + 1)
      else if EndsWithUser(st.turns) then
        var last := st.turns[|st.turns| - 1];
        (st.(turns := st.turns[|st.turns| - 1 := last.(trail := last.trail + [i])]), i + 1)
      else (st.(pending := st.pending + [i]), i + 1)
    case Assistant =>
      (PlanState(Flush(st) + AssistantTurns(messages, i), []), if AnswersCall(messages, i) then i + 2 else i + 1)
  }

  function PlanFrom(messages: seq<Message>, i: nat, st: PlanState): seq<Turn>
    requires i <= |messages|
    decreases |messages| - i
  {
    if i == |messages| then Flush(st)
    else var (st1, next) := Step(messages, i, st); PlanFrom(messages, next, st1)
  }

  function Plan(messages: seq<Message>, hasTop: bool): seq<Turn> {
    PlanFrom(messages, 0, PlanState(if hasTop then [TopTurn] else [], []))
  }

  // ----- rendering

  /** The content of message `k`; a plan names only messages there are. */
  function ContentAt(messages: seq<Message>, k: nat): Content {
    if k < |messages| then messages[k].content else Plain("")
  }

  function SystemTexts(messages: seq<Message>, ks: seq<nat>): seq<string> {
    seq(|ks|, j requires 0 <= j < |ks| => SystemText(ContentAt(messages, ks[j])))
  }

  function AppendAll(content: UserContent, texts: seq<string>): UserContent {
    if texts == [] then content
    else AppendText(AppendAll(content, texts[..|texts| - 1]), texts[|texts| - 1])
  }

  function RenderUser(messages: seq<Message>, turn: Turn): UserContent
    requires turn.UserTurn?
  {
    var own := if turn.own.Some? then ConvertUser(ContentAt(messages, turn.own.value)) else UserText("");
    var led := if turn.lead != [] then PrependText(own, Join(SystemTexts(messages, turn.lead))) else own;
    AppendAll(led, SystemTexts(messages, turn.trail))
  }

  function Render(messages: seq<Message>, top: string, turn: Turn): seq<OpenAiMessage> {
    match turn
    case TopTurn => [SystemMessage(top)]
    case UserTurn(_, _, _) => [UserMessage(RenderUser(messages, turn))]
    case AssistantTurn(k) => [ConvertAssistant(ContentAt(messages, k))]
    case ToolTurn(k) => ToolMessages(ContentAt(messages, k))
  }

  function RenderAll(messages: seq<Message>, top: string, turns: seq<Turn>): seq<OpenAiMessage> {
    if turns == [] then []
    else RenderAll(messages, top, turns[..|turns| - 1]) + Render(messages, top, turns[|turns| - 1])
  }

  lemma RenderPush(messages: seq<Message>, top: string, turns: seq<Turn>, last: Turn)
    ensures RenderAll(messages, top, turns + [last]) == RenderAll(messages, top, turns) + Render(messages, top, last)
  {
    assert (turns + [last])[..|turns|] == turns;
  }

  lemma RenderConcatStep(messages: seq<Message>, top: string, a: seq<Turn>, front: seq<Turn>, last: Turn)
    requires RenderAll(messages, top, a + front) == RenderAll(messages, top, a) + RenderAll(messages, top, front)
    ensures RenderAll(messages, top, a + (front + [last])) == RenderAll(messages, top, a) + RenderAll(messages, top, front + [last])
  {
    hide RenderAll, Render;
    Associative(a, front, [last]);
    RenderPush(messages, top, a + front, last);
    RenderPush(messages, top, front, last);
    Associative(RenderAll(messages, top, a), RenderAll(messages, top, front), Render(messages, top, last));
  }

  lemma {:induction false} RenderAllConcat(messages: seq<Message>, top: string, a: seq<Turn>, b: seq<Turn>)
    ensures RenderAll(messages, top, a + b) == RenderAll(messages, top, a) + RenderAll(messages, top, b)
  {
    hide RenderAll;
    if b == [] {
      RenderNone(messages, top);
      NoneAdded(a);
      NoneAdded(RenderAll(messages, top, a));
    } else {
      var front, last := b[..|b| - 1], b[|b| - 1];
      RenderAllConcat(messages, top, a, front);
      RenderConcatStep(messages, top, a, front, last);
      LastApart(b);
    }
  }

  lemma RenderNone(messages: seq<Message>, top: string)
    ensures RenderAll(messages, top, []) == []
  {
  }

  lemma RenderOne(messages: seq<Message>, top: string, turn: Turn)
    ensures RenderAll(messages, top, [turn]) == Render(messages, top, turn)
  {
    assert [turn][..0] == [];
  }

  // ----- the loop as it runs

  predicate EndsWithUserMessage(out: seq<OpenAiMessage>) {
    out != [] && out[|out| - 1].UserMessage?
  }

  /** The loop's data stand for a plan state: messages rendered, pending texts named. */
  predicate Represents(messages: seq<Message>, top: string, out: seq<OpenAiMessage>, pending: seq<string>, st: PlanState) {
    && out == RenderAll(messages, top, st.turns)
    && pending == SystemTexts(messages, st.pending)
    && (EndsWithUserMessage(out) <==> EndsWithUser(st.turns))
  }

  lemma RenderedEnd(messages: seq<Message>, top: string, turns: seq<Turn>)
    requires turns != []
    requires var last := turns[|turns| - 1]; last.ToolTurn? ==> ToolMessages(ContentAt(messages, last.k)) != []
    ensures var out := RenderAll(messages, top, turns);
            out != [] && (out[|out| - 1].UserMessage? <==> turns[|turns| - 1].UserTurn?)
  {
    var last := turns[|turns| - 1];
    if last.ToolTurn? {
      ResultsAreTool(ContentAt(messages, last.k).blocks);
    }
    var out, tail := RenderAll(messages, top, turns), Render(messages, top, last);
    assert out[|out| - 1] == tail[|tail| - 1];
  }

  /** Turns with something to render, added at the end, decide whether the output ends with a user message. */
  lemma Represent(messages: seq<Message>, top: string, turns: seq<Turn>, more: seq<Turn>)
    requires more != []
    requires var last := more[|more| - 1]; last.ToolTurn? ==> ToolMessages(ContentAt(messages, last.k)) != []
    ensures RenderAll(messages, top, turns + more) == RenderAll(messages, top, turns) + RenderAll(messages, top, more)
    ensures EndsWithUserMessage(RenderAll(messages, top, turns + more)) <==> EndsWithUser(more)
  {
    RenderAllConcat(messages, top, turns, more);
    RenderedEnd(messages, top, more);
    var out, tail := RenderAll(messages, top, turns), RenderAll(messages, top, more);
    assert (out + tail)[|out + tail| - 1] == tail[|tail| - 1];
  }

  lemma {:induction false} ResultsAreTool(blocks: seq<Block>)
    ensures forall j :: 0 <= j < |ResultsOf(blocks)| ==> ResultsOf(blocks)[j].ToolMessage?
  {
    if blocks != [] {
      ResultsAreTool(blocks[1..]);
    }
  }

  /** The message loop: `top` is the top-level system text, empty when there is none. */
  method ConvertMessages(messages: seq<Message>, top: string) returns (out: seq<OpenAiMessage>)
    ensures out == RenderAll(messages, top, Plan(messages, top != ""))
  {
    ghost var st := PlanState(if top != "" then [TopTurn] else [], []);
    out := [];
    if top != "" {
      out := [SystemMessage(top)];
      RenderOne(messages, top, TopTurn);
    }
    var pending: seq<string> := [];
    var i := 0;
    while i < |messages|
      invariant 0 <= i <= |messages|
      invariant Represents(messages, top, out, pending, st)
      invariant PlanFrom(messages, i, st) == Plan(messages, top != "")
    {
      ghost var before := st;
      st := Step(messages, i, before).0;
      out, pending, i := TakeMessage(messages, top, i, out, pending, before);
    }
    out := FlushPending(messages, top, out, pending, st);
  }

  /** One round of the loop; `next` is where it goes on, two further after answered calls. */
  method TakeMessage(messages: seq<Message>, top: string, i: nat, out: seq<OpenAiMessage>, pending: seq<string>, ghost st: PlanState)
    returns (out': seq<OpenAiMessage>, pending': seq<string>, next: nat)
    requires i < |messages| && Represents(messages, top, out, pending, st)
    ensures Represents(messages, top, out', pending', Step(messages, i, st).0)
    ensures next == Step(messages, i, st).1
  {
    next := i;
    match messages[i].role {
      case User =>
        out', pending' := TakeUser(messages, top, i, out, pending, st);
      case System =>
        out', pending' := TakeSystem(messages, top, i, out, pending, st);
      case Assistant =>
        out' := FlushPending(messages, top, out, pending, st);
        pending' := [];
        out' := TakeAssistant(messages, top, i, out', PlanState(Flush(st), []));
        if AnswersCall(messages, i) {
          next := next + 1;
        }
    }
    next := next + 1;
  }

  method TakeUser(messages: seq<Message>, top: string, i: nat, out: seq<OpenAiMessage>, pending: seq<string>, ghost st: PlanState)
    returns (out': seq<OpenAiMessage>, pending': seq<string>)
    requires i < |messages| && messages[i].role == User && Represents(messages, top, out, pending, st)
    ensures Represents(messages, top, out', pending', Step(messages, i, st).0)
  {
    var content := ConvertUser(messages[i].content);
    if pending != [] {
      content := PrependText(content, Join(pending));
    }
    out', pending' := out + [UserMessage(content)], [];
    ghost var turn := UserTurn(st.pending, Some(i), []);
    Represent(messages, top, st.turns, [turn]);
    RenderOne(messages, top, turn);
  }

  method TakeSystem(messages: seq<Message>, top: string, i: nat, out: seq<OpenAiMessage>, pending: seq<string>, ghost st: PlanState)
    returns (out': seq<OpenAiMessage>, pending': seq<string>)
    requires i < |messages| && messages[i].role == System && Represents(messages, top, out, pending, st)
    ensures Represents(messages, top, out', pending', Step(messages, i, st).0)
  {
    out', pending' := out, pending;
    var text := SystemText(messages[i].content);
    if text != "" && out != [] && out[|out| - 1].UserMessage? {
      var last := out[|out| - 1];
      out' := out[|out| - 1 := UserMessage(AppendText(last.content, text))];
      AppendToLast(messages, top, i, out, st);
    } else if text != "" {
      pending' := pending + [text];
    }
  }

  lemma TrailText(messages: seq<Message>, turn: Turn, i: nat)
    requires i < |messages| && turn.UserTurn?
    ensures RenderUser(messages, turn.(trail := turn.trail + [i]))
              == AppendText(RenderUser(messages, turn), SystemText(messages[i].content))
  {
    var texts := SystemTexts(messages, turn.trail + [i]);
    assert texts[..|texts| - 1] == SystemTexts(messages, turn.trail);
  }

  lemma ReplaceLast<T>(front: seq<T>, last: T, other: T)
    ensures (front + [last])[|front| := other] == front + [other]
  {
  }

  lemma AppendToLast(messages: seq<Message>, top: string, i: nat, out: seq<OpenAiMessage>, st: PlanState)
    requires i < |messages| && EndsWithUser(st.turns)
    requires out == RenderAll(messages, top, st.turns)
    ensures var n := |st.turns| - 1;
            var turn := st.turns[n].(trail := st.turns[n].trail + [i]);
            && out != [] && out[|out| - 1].UserMessage?
            && RenderAll(messages, top, st.turns[n := turn])
                 == out[|out| - 1 := UserMessage(AppendText(out[|out| - 1].content, SystemText(messages[i].content)))]
  {
    var n := |st.turns| - 1;
    var before := st.turns[n];
    var turn := before.(trail := before.trail + [i]);
    TrailText(messages, before, i);
    var turns := st.turns[n := turn];
    assert turns[..n] == st.turns[..n];
    ReplaceLast(RenderAll(messages, top, st.turns[..n]), UserMessage(RenderUser(messages, before)), UserMessage(RenderUser(messages, turn)));
  }

  method FlushPending(messages: seq<Message>, top: string, out: seq<OpenAiMessage>, pending: seq<string>, ghost st: PlanState)
    returns (out': seq<OpenAiMessage>)
    requires Represents(messages, top, out, pending, st)
    ensures Represents(messages, top, out', [], PlanState(Flush(st), []))
  {
    out' := out;
    if pending != [] {
      out' := out + [UserMessage(UserText(Join(pending)))];
      ghost var turn := UserTurn(st.pending, None, []);
      Represent(messages, top, st.turns, [turn]);
      RenderOne(messages, top, turn);
    }
  }

  method TakeAssistant(messages: seq<Message>, top: string, i: nat, out: seq<OpenAiMessage>, ghost st: PlanState)
    returns (out': seq<OpenAiMessage>)
    requires i < |messages| && messages[i].role == Assistant
    requires Represents(messages, top, out, [], st)
    ensures Represents(messages, top, out', [], PlanState(st.turns + AssistantTurns(messages, i), []))
  {
    var more := [ConvertAssistant(messages[i].content)];
    if i + 1 < |messages| {
      var next := messages[i + 1];
      if HasToolResult(next) {
        more := more + ToolMessages(next.content);
        var remainder := ConvertUser(next.content);
        if HasVisibleContent(remainder) {
          more := more + [UserMessage(remainder)];
        }
      }
    }
    RenderAssistantTurns(messages, top, i);
    assert more == RenderAll(messages, top, AssistantTurns(messages, i));
    AssistantTurnsEnd(messages, i);
    Represent(messages, top, st.turns, AssistantTurns(messages, i));
    out' := out + more;
    assert EndsWithUser(st.turns + AssistantTurns(messages, i)) <==> EndsWithUser(AssistantTurns(messages, i));
  }

  lemma AssistantTurnsEnd(messages: seq<Message>, i: nat)
    requires i < |messages|
    ensures var turns := AssistantTurns(messages, i);
            turns != [] && (turns[|turns| - 1].ToolTurn? ==> ToolMessages(ContentAt(messages, turns[|turns| - 1].k)) != [])
  {
  }

  lemma RenderAssistantTurns(messages: seq<Message>, top: string, i: nat)
    requires i < |messages|
    ensures RenderAll(messages, top, AssistantTurns(messages, i)) ==
              [ConvertAssistant(messages[i].content)]
              + (if AnswersCall(messages, i) then
                   var remainder := ConvertUser(messages[i + 1].content);
                   ToolMessages(messages[i + 1].content) + (if HasVisibleContent(remainder) then [UserMessage(remainder)] else [])
                 else [])
  {
    RenderOne(messages, top, AssistantTurn(i));
    if AnswersCall(messages, i) {
      RenderOne(messages, top, ToolTurn(i + 1));
      RenderAllConcat(messages, top, [AssistantTurn(i)], [ToolTurn(i + 1)]);
      assert [AssistantTurn(i)] + [ToolTurn(i + 1)] == [AssistantTurn(i), ToolTurn(i + 1)];
      var remainder := UserTurn([], Some(i + 1), []);
      RenderOne(messages, top, remainder);
      RenderAllConcat(messages, top, [AssistantTurn(i), ToolTurn(i + 1)], [remainder]);
      assert SystemTexts(messages, []) == [];
    }
  }
}
