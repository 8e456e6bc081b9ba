/**
 * What the chat request translation guarantees about every conversation:
 * user turns never become adjacent, every system text keeps its place and
 * appears once, and tool results follow the calls they answer.
 */
module RequestPlan {
  import opened Common
  import opened RequestConverter
  import opened Text

  // ----- user turns do not become adjacent

  /** The roles of the messages without the system ones. */
  function Speakers(messages: seq<Message>): seq<Role> {
    if messages == [] then []
    else
      var last := messages[|messages| - 1].role;
      Speakers(messages[..|messages| - 1]) + (if last == System then [] else [last])
  }

  predicate NoTwoUsers(roles: seq<Role>) {
    forall k :: 0 < k < |roles| ==> !(roles[k - 1] == User && roles[k] == User)
  }

  predicate NoAdjacentUserTurns(turns: seq<Turn>) {
    forall k :: 0 < k < |turns| ==> !(turns[k - 1].UserTurn? && turns[k].UserTurn?)
  }

  predicate NoAdjacentUserMessages(out: seq<OpenAiMessage>) {
    forall k :: 0 < k < |out| ==> !(out[k - 1].UserMessage? && out[k].UserMessage?)
  }

  predicate ToolTurnsAnswer(messages: seq<Message>, turns: seq<Turn>) {
    forall p :: 0 <= p < |turns| && turns[p].ToolTurn? ==> turns[p].k < |messages| && HasToolResult(messages[turns[p].k])
  }

  predicate Alternating(messages: seq<Message>, i: nat, st: PlanState) {
    && i <= |messages|
    && NoAdjacentUserTurns(st.turns) && ToolTurnsAnswer(messages, st.turns)
    && (st.pending != [] ==> !EndsWithUser(st.turns))
    && (EndsWithUser(st.turns) ==>
          var said := Speakers(messages[..i]); said != [] && said[|said| - 1] == User)
  }

  lemma SpeakersAppend(messages: seq<Message>, i: nat)
    requires i < |messages|
    ensures Speakers(messages[..i + 1]) == Speakers(messages[..i]) + (if messages[i].role == System then [] else [messages[i].role])
  {
    assert messages[..i + 1][..i] == messages[..i];
  }

  lemma {:induction false} SpeakersPrefix(messages: seq<Message>, i: nat)
    requires i <= |messages|
    ensures Speakers(messages[..i]) <= Speakers(messages)
    decreases |messages| - i
  {
    if i == |messages| {
      assert messages[..i] == messages;
    } else {
      SpeakersAppend(messages, i);
      SpeakersPrefix(messages, i + 1);
    }
  }

  /** A user message cannot come while the last turn is the user's. */
  lemma UserAfterOther(messages: seq<Message>, i: nat, st: PlanState)
    requires i < |messages| && NoTwoUsers(Speakers(messages)) && Alternating(messages, i, st)
    requires messages[i].role == User
    ensures !EndsWithUser(st.turns)
  {
    SpeakersAppend(messages, i);
    SpeakersPrefix(messages, i + 1);
    NotAfterUser(Speakers(messages), Speakers(messages[..i]));
  }

  lemma NotAfterUser(all: seq<Role>, said: seq<Role>)
    requires NoTwoUsers(all) && said + [User] <= all
    ensures said != [] ==> said[|said| - 1] != User
  {
    var now := said + [User];
    assert now[|said|] == User && all[|said|] == now[|said|];
    if said != [] {
      assert now[|said| - 1] == said[|said| - 1] && all[|said| - 1] == now[|said| - 1];
    }
  }

  lemma PushAlternates(messages: seq<Message>, turns: seq<Turn>, turn: Turn)
    requires NoAdjacentUserTurns(turns) && ToolTurnsAnswer(messages, turns)
    requires turn.UserTurn? ==> !EndsWithUser(turns)
    requires turn.ToolTurn? ==> turn.k < |messages| && HasToolResult(messages[turn.k])
    ensures NoAdjacentUserTurns(turns + [turn]) && ToolTurnsAnswer(messages, turns + [turn])
  {
  }

  lemma StepAlternates(messages: seq<Message>, i: nat, st: PlanState)
    requires i < |messages| && NoTwoUsers(Speakers(messages)) && Alternating(messages, i, st)
    ensures Alternating(messages, Step(messages, i, st).1, Step(messages, i, st).0)
  {
    SpeakersAppend(messages, i);
    match messages[i].role
    case User =>
      UserAfterOther(messages, i, st);
      PushAlternates(messages, st.turns, UserTurn(st.pending, Some(i), []));
    case System => SystemAlternates(messages, i, st);
    case Assistant => AssistantAlternates(messages, i, st);
  }

  lemma SystemAlternates(messages: seq<Message>, i: nat, st: PlanState)
    requires i < |messages| && Alternating(messages, i, st) && messages[i].role == System
    ensures Alternating(messages, Step(messages, i, st).1, Step(messages, i, st).0)
  {
    SpeakersAppend(messages, i);
  }

  lemma AssistantAlternates(messages: seq<Message>, i: nat, st: PlanState)
    requires i < |messages| && Alternating(messages, i, st) && messages[i].role == Assistant
    ensures Alternating(messages, if AnswersCall(messages, i) then i + 2 else i + 1,
                        PlanState(Flush(st) + AssistantTurns(messages, i), []))
  {
    SpeakersAppend(messages, i);
    if st.pending != [] {
      PushAlternates(messages, st.turns, UserTurn(st.pending, None, []));
    }
    PushAlternates(messages, Flush(st), AssistantTurn(i));
    if AnswersCall(messages, i) {
      SpeakersAppend(messages, i + 1);
      AnsweredAlternates(messages, i, Flush(st));
    }
  }

  lemma AnsweredAlternates(messages: seq<Message>, i: nat, turns: seq<Turn>)
    requires AnswersCall(messages, i)
    requires NoAdjacentUserTurns(turns + [AssistantTurn(i)]) && ToolTurnsAnswer(messages, turns + [AssistantTurn(i)])
    ensures NoAdjacentUserTurns(turns + AssistantTurns(messages, i)) && ToolTurnsAnswer(messages, turns + AssistantTurns(messages, i))
  {
    var called := turns + [AssistantTurn(i)];
    var answered := called + [ToolTurn(i + 1)];
    PushAlternates(messages, called, ToolTurn(i + 1));
    PushAlternates(messages, answered, UserTurn([], Some(i + 1), []));
    assert turns + AssistantTurns(messages, i) == answered + AssistantTurns(messages, i)[2..];
  }

  lemma {:induction false} PlanAlternates(messages: seq<Message>, i: nat, st: PlanState)
    requires NoTwoUsers(Speakers(messages)) && Alternating(messages, i, st)
    ensures NoAdjacentUserTurns(PlanFrom(messages, i, st)) && ToolTurnsAnswer(messages, PlanFrom(messages, i, st))
    decreases |messages| - i
  {
    if i < |messages| {
      StepAlternates(messages, i, st);
      PlanAlternates(messages, Step(messages, i, st).1, Step(messages, i, st).0);
    }
  }

  lemma RendersOneUser(messages: seq<Message>, top: string, turn: Turn)
    ensures turn.UserTurn? ==> |Render(messages, top, turn)| == 1
    ensures forall k :: 0 <= k < |Render(messages, top, turn)| && Render(messages, top, turn)[k].UserMessage? ==> turn.UserTurn?
  {
    if turn.ToolTurn? && ContentAt(messages, turn.k).Blocks? {
      ResultsAreTool(ContentAt(messages, turn.k).blocks);
    }
  }

  lemma KeepsApart(out: seq<OpenAiMessage>, more: seq<OpenAiMessage>)
    requires NoAdjacentUserMessages(out)
    requires |more| > 1 || EndsWithUserMessage(out) ==> forall k :: 0 <= k < |more| ==> !more[k].UserMessage?
    ensures NoAdjacentUserMessages(out + more)
  {
    var all := out + more;
    forall k | 0 < k < |all| ensures !(all[k - 1].UserMessage? && all[k].UserMessage?) {
      if k < |out| {
        assert all[k - 1] == out[k - 1] && all[k] == out[k];
      } else {
        assert all[k] == more[k - |out|];
      }
    }
  }

  lemma {:induction false} RenderedAlternates(messages: seq<Message>, top: string, turns: seq<Turn>)
    requires NoAdjacentUserTurns(turns) && ToolTurnsAnswer(messages, turns)
    ensures NoAdjacentUserMessages(RenderAll(messages, top, turns))
    ensures EndsWithUserMessage(RenderAll(messages, top, turns)) <==> EndsWithUser(turns)
  {
    if turns != [] {
      var front, last := turns[..|turns| - 1], turns[|turns| - 1];
      RenderedAlternates(messages, top, front);
      assert turns == front + [last];
      Represent(messages, top, front, [last]);
      RenderOne(messages, top, last);
      RendersOneUser(messages, top, last);
      assert last.UserTurn? ==> !EndsWithUser(front);
      KeepsApart(RenderAll(messages, top, front), Render(messages, top, last));
    }
  }

  /** If the input without its system messages has no two adjacent user turns, neither has the output. */
  lemma NoAdjacentUsersInOutput(messages: seq<Message>, top: string)
    requires NoTwoUsers(Speakers(messages))
    ensures NoAdjacentUserMessages(RenderAll(messages, top, Plan(messages, top != "")))
  {
    var turns := if top != "" then [TopTurn] else [];
    PlanAlternates(messages, 0, PlanState(turns, []));
    RenderedAlternates(messages, top, Plan(messages, top != ""));
  }

  // ----- every message in its place, once

  function Mentioned(turn: Turn): seq<nat> {
    match turn
    case TopTurn => []
    case UserTurn(lead, own, trail) => lead + (if own.Some? then [own.value] else []) + trail
    case AssistantTurn(k) => [k]
    case ToolTurn(_) => []
  }

  /** The messages whose texts the turns carry, in output order. */
  function Order(turns: seq<Turn>): seq<nat> {
    if turns == [] then [] else Order(turns[..|turns| - 1]) + Mentioned(turns[|turns| - 1])
  }

  /** Whether a message contributes to the output beyond its tool results. */
  predicate Shown(messages: seq<Message>, k: nat)
    requires k < |messages|
  {
    match messages[k].role
    case System => SystemText(messages[k].content) != ""
    case Assistant => true
    case User =>
      !(k > 0 && messages[k - 1].role == Assistant && HasToolResult(messages[k]))
      || HasVisibleContent(ConvertUser(messages[k].content))
  }

  /** The messages below `i` that are shown. */
  function ShownBelow(messages: seq<Message>, i: nat): seq<nat>
    requires i <= |messages|
  {
    if i == 0 then [] else ShownBelow(messages, i - 1) + (if Shown(messages, i - 1) then [i - 1] else [])
  }

  lemma OrderPush(turns: seq<Turn>, last: Turn)
    ensures Order(turns + [last]) == Order(turns) + Mentioned(last)
  {
    assert (turns + [last])[..|turns|] == turns;
  }

  lemma OrderConcatStep(a: seq<Turn>, front: seq<Turn>, last: Turn)
    requires Order(a + front) == Order(a) + Order(front)
    ensures Order(a + (front + [last])) == Order(a) + Order(front + [last])
  {
    hide Order, Mentioned;
    Associative(a, front, [last]);
    OrderPush(a + front, last);
    OrderPush(front, last);
    Associative(Order(a), Order(front), Mentioned(last));
  }

  lemma {:induction false} OrderConcat(a: seq<Turn>, b: seq<Turn>)
    ensures Order(a + b) == Order(a) + Order(b)
  {
    hide Order, Mentioned;
    if b == [] {
      OrderNone();
      NoneAdded(a);
      NoneAdded(Order(a));
    } else {
      var front, last := b[..|b| - 1], b[|b| - 1];
      OrderConcat(a, front);
      OrderConcatStep(a, front, last);
      LastApart(b);
    }
  }

  lemma OrderNone()
    ensures Order([]) == []
  {
  }

  lemma OrderOne(turn: Turn)
    ensures Order([turn]) == Mentioned(turn)
  {
    assert [turn][..0] == [];
  }

  /** What is planned and what is pending are the shown messages so far, in input order. */
  predicate Placed(messages: seq<Message>, i: nat, st: PlanState) {
    && i <= |messages|
    && Order(st.turns) + st.pending == ShownBelow(messages, i)
    && (st.pending != [] ==> !EndsWithUser(st.turns))
    && (0 < i < |messages| && messages[i - 1].role == Assistant ==> !HasToolResult(messages[i]))
  }

  lemma FlushOrder(st: PlanState)
    ensures Order(Flush(st)) == Order(st.turns) + st.pending
  {
    var turn := UserTurn(st.pending, None, []);
    OrderConcat(st.turns, [turn]);
    OrderOne(turn);
    assert Mentioned(turn) == st.pending;
  }

  lemma AssistantOrder(messages: seq<Message>, i: nat)
    requires i < |messages| && messages[i].role == Assistant
    ensures Order(AssistantTurns(messages, i))
              == [i] + (if AnswersCall(messages, i) && Shown(messages, i + 1) then [i + 1] else [])
  {
    hide Order, SystemText;
    OrderOne(AssistantTurn(i));
    if AnswersCall(messages, i) {
      OrderOne(ToolTurn(i + 1));
      OrderConcat([AssistantTurn(i)], [ToolTurn(i + 1)]);
      assert [AssistantTurn(i)] + [ToolTurn(i + 1)] == [AssistantTurn(i), ToolTurn(i + 1)];
      var remainder := UserTurn([], Some(i + 1), []);
      OrderOne(remainder);
      OrderConcat([AssistantTurn(i), ToolTurn(i + 1)], [remainder]);
      NoneAdded([AssistantTurn(i), ToolTurn(i + 1)]);
      NoneAdded([i]);
    }
  }

  lemma TrailOrder(turns: seq<Turn>, i: nat)
    requires EndsWithUser(turns)
    ensures var n := |turns| - 1;
            Order(turns[n := turns[n].(trail := turns[n].trail + [i])]) == Order(turns) + [i]
  {
    var n := |turns| - 1;
    var turn := turns[n].(trail := turns[n].trail + [i]);
    assert turns[n := turn][..n] == turns[..n];
    assert Mentioned(turn) == Mentioned(turns[n]) + [i];
  }

  lemma UserPlaces(messages: seq<Message>, i: nat, st: PlanState)
    requires i < |messages| && Placed(messages, i, st) && messages[i].role == User
    ensures Placed(messages, Step(messages, i, st).1, Step(messages, i, st).0)
  {
    var turn := UserTurn(st.pending, Some(i), []);
    OrderConcat(st.turns, [turn]);
    OrderOne(turn);
    Associative(Order(st.turns), st.pending, [i]);
    assert Mentioned(turn) == st.pending + [i];
    assert Shown(messages, i);
    assert ShownBelow(messages, i + 1) == ShownBelow(messages, i) + [i];
    var s := Step(messages, i, st).0;
    assert Order(s.turns) + s.pending == Order(s.turns);
  }

  lemma SystemPlaces(messages: seq<Message>, i: nat, st: PlanState)
    requires i < |messages| && Placed(messages, i, st) && messages[i].role == System
    ensures Placed(messages, Step(messages, i, st).1, Step(messages, i, st).0)
  {
    var below := ShownBelow(messages, i);
    if SystemText(messages[i].content) == "" {
      assert ShownBelow(messages, i + 1) == below;
    } else if EndsWithUser(st.turns) {
      TrailOrder(st.turns, i);
      assert Order(st.turns) + [] == Order(st.turns);
      assert Order(Step(messages, i, st).0.turns) + [] == below + [i];
    } else {
      Associative(Order(st.turns), st.pending, [i]);
    }
  }

  lemma AssistantCarries(messages: seq<Message>, i: nat, st: PlanState)
    requires i < |messages| && messages[i].role == Assistant
    ensures Order(Flush(st) + AssistantTurns(messages, i)) == (Order(st.turns) + st.pending)
              + ([i] + (if AnswersCall(messages, i) && Shown(messages, i + 1) then [i + 1] else []))
  {
    FlushOrder(st);
    AssistantOrder(messages, i);
    OrderConcat(Flush(st), AssistantTurns(messages, i));
  }

  lemma AssistantPlaces(messages: seq<Message>, i: nat, st: PlanState)
    requires i < |messages| && Placed(messages, i, st) && messages[i].role == Assistant
    ensures Placed(messages, if AnswersCall(messages, i) then i + 2 else i + 1, PlanState(Flush(st) + AssistantTurns(messages, i), []))
  {
    AssistantCarries(messages, i, st);
    PlacedAfter(messages, i, Flush(st) + AssistantTurns(messages, i));
  }

  lemma PlacedAfter(messages: seq<Message>, i: nat, turns: seq<Turn>)
    requires i < |messages| && messages[i].role == Assistant
    requires Order(turns) == ShownBelow(messages, i) + ([i] + (if AnswersCall(messages, i) && Shown(messages, i + 1) then [i + 1] else []))
    ensures Placed(messages, if AnswersCall(messages, i) then i + 2 else i + 1, PlanState(turns, []))
  {
    hide Order, Shown, ShownBelow;
    ShownPair(messages, i);
    var order := Order(turns);
    assert order + [] == order;
  }

  lemma ShownPair(messages: seq<Message>, i: nat)
    requires i < |messages| && messages[i].role == Assistant
    ensures ShownBelow(messages, i + 1) == ShownBelow(messages, i) + [i]
    ensures i + 1 < |messages| ==>
              ShownBelow(messages, i + 2) == ShownBelow(messages, i) + ([i] + (if Shown(messages, i + 1) then [i + 1] else []))
  {
    if i + 1 < |messages| {
      Associative(ShownBelow(messages, i), [i], if Shown(messages, i + 1) then [i + 1] else []);
    }
  }

  lemma StepPlaces(messages: seq<Message>, i: nat, st: PlanState)
    requires i < |messages| && Placed(messages, i, st)
    ensures Placed(messages, Step(messages, i, st).1, Step(messages, i, st).0)
  {
    match messages[i].role
    case User => UserPlaces(messages, i, st);
    case System => SystemPlaces(messages, i, st);
    case Assistant => AssistantPlaces(messages, i, st);
  }

  lemma {:induction false} PlanPlaces(messages: seq<Message>, i: nat, st: PlanState)
    requires Placed(messages, i, st)
    ensures Order(PlanFrom(messages, i, st)) == ShownBelow(messages, |messages|)
    decreases |messages| - i
  {
    if i < |messages| {
      StepPlaces(messages, i, st);
      PlanPlaces(messages, Step(messages, i, st).1, Step(messages, i, st).0);
    } else {
      FlushOrder(st);
    }
  }

  /**
   * Read in output order, the turns carry exactly the shown messages in input order: in
   * particular every non-empty system text appears once, after everything before it in the
   * conversation and before everything after it.
   */
  lemma MessagesKeepTheirPlace(messages: seq<Message>, hasTop: bool)
    ensures Order(Plan(messages, hasTop)) == ShownBelow(messages, |messages|)
  {
    OrderOne(TopTurn);
    PlanPlaces(messages, 0, PlanState(if hasTop then [TopTurn] else [], []));
  }

  lemma {:induction false} ShownBelowMeans(messages: seq<Message>, i: nat)
    requires i <= |messages|
    ensures forall j, k :: 0 <= j < k < |ShownBelow(messages, i)| ==> ShownBelow(messages, i)[j] < ShownBelow(messages, i)[k]
    ensures forall k: nat :: k in ShownBelow(messages, i) <==> k < i && Shown(messages, k)
  {
    hide Shown;
    if i > 0 {
      ShownBelowMeans(messages, i - 1);
      var below := ShownBelow(messages, i - 1);
      forall j | 0 <= j < |below| ensures below[j] < i - 1 {
        assert below[j] in below;
      }
    }
  }

  // ----- texts within a turn

  function NonEmpty(text: string): seq<string> {
    if text == "" then [] else [text]
  }

  lemma {:induction false} JoinAppend(texts: seq<string>, text: string)
    requires texts != []
    ensures Join(texts + [text]) == Join(texts) + "\n\n" + text
  {
    if |texts| > 1 {
      assert (texts + [text])[1..] == texts[1..] + [text];
      JoinAppend(texts[1..], text);
      assert texts[0] + "\n\n" + (Join(texts[1..]) + "\n\n" + text) == (texts[0] + "\n\n" + Join(texts[1..])) + "\n\n" + text;
    } else {
      assert (texts + [text])[1..] == [text];
    }
  }

  lemma {:induction false} JoinNonEmpty(texts: seq<string>)
    requires texts != [] && texts[0] != ""
    ensures Join(texts) != ""
  {
  }

  /** Text added at the end of a plain text, piece by piece, is one join of all the pieces. */
  lemma {:induction false} AppendAllText(before: seq<string>, texts: seq<string>)
    requires forall j :: 0 <= j < |before + texts| ==> (before + texts)[j] != ""
    ensures AppendAll(UserText(Join(before)), texts) == UserText(Join(before + texts))
    decreases |texts|
  {
    if texts == [] {
      assert before + texts == before;
    } else {
      var front, last := texts[..|texts| - 1], texts[|texts| - 1];
      assert before + texts == (before + front) + [last];
      forall j | 0 <= j < |before + front| ensures (before + front)[j] != "" {
        assert (before + front)[j] == (before + texts)[j];
      }
      AppendAllText(before, front);
      if before + front != [] {
        assert (before + front)[0] == (before + texts)[0];
        JoinNonEmpty(before + front);
        JoinAppend(before + front, last);
      }
    }
  }

  lemma {:induction false} AppendAllParts(parts: seq<Part>, texts: seq<string>)
    ensures AppendAll(UserParts(parts), texts) == UserParts(parts + seq(|texts|, j requires 0 <= j < |texts| => TextPart(texts[j])))
  {
    if texts == [] {
      assert parts + [] == parts;
    } else {
      AppendAllParts(parts, texts[..|texts| - 1]);
    }
  }

  lemma {:induction false} JoinSplit(a: seq<string>, b: seq<string>)
    requires a != [] && b != []
    ensures Join(a + b) == Join(a) + "\n\n" + Join(b)
  {
    if |a| == 1 {
      assert (a + b)[1..] == b;
    } else {
      assert (a + b)[1..] == a[1..] + b;
      JoinSplit(a[1..], b);
      assert a[0] + "\n\n" + (Join(a[1..]) + "\n\n" + Join(b)) == (a[0] + "\n\n" + Join(a[1..])) + "\n\n" + Join(b);
    }
  }

  predicate AllNonEmpty(texts: seq<string>) {
    forall j :: 0 <= j < |texts| ==> texts[j] != ""
  }

  /**
   * The content of a user turn, from its pieces in order: joined by blank lines around a plain
   * text, or as parts of their own around a part list.
   */
  function Pieced(lead: seq<string>, own: UserContent, trail: seq<string>): UserContent {
    match own
    case UserText(text) => UserText(Join(lead + NonEmpty(text) + trail))
    case UserParts(parts) =>
      UserParts((if lead == [] then [] else [TextPart(Join(lead))]) + parts
                + seq(|trail|, j requires 0 <= j < |trail| => TextPart(trail[j])))
  }

  function OwnContent(messages: seq<Message>, turn: Turn): UserContent
    requires turn.UserTurn?
  {
    if turn.own.Some? then ConvertUser(ContentAt(messages, turn.own.value)) else UserText("")
  }

  /** A user turn holds its pieces in order. */
  lemma TurnTexts(messages: seq<Message>, turn: Turn)
    requires turn.UserTurn?
    requires AllNonEmpty(SystemTexts(messages, turn.lead)) && AllNonEmpty(SystemTexts(messages, turn.trail))
    ensures RenderUser(messages, turn) ==
            Pieced(SystemTexts(messages, turn.lead), OwnContent(messages, turn), SystemTexts(messages, turn.trail))
  {
    var lead, trail := SystemTexts(messages, turn.lead), SystemTexts(messages, turn.trail);
    match OwnContent(messages, turn)
    case UserText(text) =>
      var before := lead + NonEmpty(text);
      if lead != [] && text != "" {
        JoinSplit(lead, [text]);
      } else if lead != [] {
        assert before == lead;
      } else {
        assert before == NonEmpty(text);
      }
      AppendAllText(before, trail);
    case UserParts(parts) =>
      var led := if lead == [] then parts else [TextPart(Join(lead))] + parts;
      AppendAllParts(led, trail);
      assert lead == [] ==> [] + parts == parts;
  }

  // ----- tool results follow the calls

  /** An assistant turn has its answers right behind it if its message has any; a tool turn answers the turn before. */
  predicate AnsweredAt(messages: seq<Message>, turns: seq<Turn>, p: nat) {
    p < |turns| ==>
      match turns[p]
      case AssistantTurn(k) => AnswersCall(messages, k) <==> p + 1 < |turns| && turns[p + 1] == ToolTurn(k + 1)
      case ToolTurn(k) => p > 0 && k > 0 && turns[p - 1] == AssistantTurn(k - 1)
      case _ => true
  }

  predicate Answered(messages: seq<Message>, turns: seq<Turn>) {
    forall p: nat :: p < |turns| ==> AnsweredAt(messages, turns, p)
  }

  lemma AnsweredAtConcat(messages: seq<Message>, a: seq<Turn>, b: seq<Turn>, p: nat)
    requires Answered(messages, a) && Answered(messages, b) && p < |a + b|
    ensures AnsweredAt(messages, a + b, p)
  {
    if p < |a| {
      assert AnsweredAt(messages, a, p);
      if b != [] {
        assert AnsweredAt(messages, b, 0);
      }
    } else {
      assert AnsweredAt(messages, b, p - |a|);
    }
  }

  lemma AnsweredConcat(messages: seq<Message>, a: seq<Turn>, b: seq<Turn>)
    requires Answered(messages, a) && Answered(messages, b)
    ensures Answered(messages, a + b)
  {
    forall p: nat | p < |a + b| ensures AnsweredAt(messages, a + b, p) {
      AnsweredAtConcat(messages, a, b, p);
    }
  }

  lemma TrailAnswers(messages: seq<Message>, turns: seq<Turn>, turn: Turn)
    requires Answered(messages, turns) && EndsWithUser(turns) && turn.UserTurn?
    ensures Answered(messages, turns[|turns| - 1 := turn])
  {
    var edited := turns[|turns| - 1 := turn];
    forall p: nat | p < |edited| ensures AnsweredAt(messages, edited, p) {
      assert AnsweredAt(messages, turns, p);
    }
  }

  lemma StepAnswers(messages: seq<Message>, i: nat, st: PlanState)
    requires i < |messages| && Answered(messages, st.turns)
    ensures Answered(messages, Step(messages, i, st).0.turns)
  {
    match messages[i].role
    case User => AnsweredConcat(messages, st.turns, [UserTurn(st.pending, Some(i), [])]);
    case System =>
      if EndsWithUser(st.turns) {
        var last := st.turns[|st.turns| - 1];
        TrailAnswers(messages, st.turns, last.(trail := last.trail + [i]));
      }
    case Assistant =>
      FlushAnswers(messages, st);
      AssistantAnswers(messages, i);
      AnsweredConcat(messages, Flush(st), AssistantTurns(messages, i));
  }

  lemma AssistantAnswers(messages: seq<Message>, i: nat)
    requires i < |messages|
    ensures Answered(messages, AssistantTurns(messages, i))
  {
    var turns := AssistantTurns(messages, i);
    assert AnsweredAt(messages, turns, 0);
    if AnswersCall(messages, i) {
      assert AnsweredAt(messages, turns, 1);
    }
  }

  lemma FlushAnswers(messages: seq<Message>, st: PlanState)
    requires Answered(messages, st.turns)
    ensures Answered(messages, Flush(st))
  {
    AnsweredConcat(messages, st.turns, [UserTurn(st.pending, None, [])]);
  }

  lemma {:induction false} PlanAnswers(messages: seq<Message>, i: nat, st: PlanState)
    requires i <= |messages| && Answered(messages, st.turns)
    ensures Answered(messages, PlanFrom(messages, i, st))
    decreases |messages| - i
  {
    if i < |messages| {
      StepAnswers(messages, i, st);
      PlanAnswers(messages, Step(messages, i, st).1, Step(messages, i, st).0);
    } else {
      FlushAnswers(messages, st);
    }
  }

  lemma {:induction false} MentionedTurn(turns: seq<Turn>, k: nat) returns (p: nat)
    requires k in Order(turns)
    ensures p < |turns| && k in Mentioned(turns[p])
  {
    p := |turns| - 1;
    if k !in Mentioned(turns[p]) {
      p := MentionedTurn(turns[..p], k);
    }
  }

  predicate IsTold(messages: seq<Message>, k: nat) {
    k < |messages| && messages[k].role == System && SystemText(messages[k].content) != ""
  }

  predicate AllTold(messages: seq<Message>, ks: seq<nat>) {
    forall j :: 0 <= j < |ks| ==> IsTold(messages, ks[j])
  }

  /** A turn names messages of its own kind: non-empty system texts around a user message, or an assistant message. */
  predicate OwnTurn(messages: seq<Message>, turn: Turn) {
    match turn
    case UserTurn(lead, own, trail) =>
      && AllTold(messages, lead) && AllTold(messages, trail)
      && (own.Some? ==> own.value < |messages| && messages[own.value].role == User)
    case AssistantTurn(k) => k < |messages| && messages[k].role == Assistant
    case _ => true
  }

  predicate OwnRoles(messages: seq<Message>, turns: seq<Turn>) {
    forall p :: 0 <= p < |turns| ==> OwnTurn(messages, turns[p])
  }

  /** Only as an assistant turn does the plan carry an assistant message, and only around a user message a system text. */
  lemma OwnPlace(messages: seq<Message>, turn: Turn, k: nat)
    requires OwnTurn(messages, turn) && k in Mentioned(turn) && k < |messages|
    ensures messages[k].role == Assistant ==> turn == AssistantTurn(k)
    ensures messages[k].role == System ==> turn.UserTurn? && (k in turn.lead || k in turn.trail)
  {
  }

  lemma RolesConcat(messages: seq<Message>, a: seq<Turn>, b: seq<Turn>)
    requires OwnRoles(messages, a) && OwnRoles(messages, b)
    ensures OwnRoles(messages, a + b)
  {
  }

  lemma TrailRoles(messages: seq<Message>, turns: seq<Turn>, i: nat)
    requires IsTold(messages, i) && OwnRoles(messages, turns) && EndsWithUser(turns)
    ensures var n := |turns| - 1; OwnRoles(messages, turns[n := turns[n].(trail := turns[n].trail + [i])])
  {
    var last := turns[|turns| - 1];
    assert OwnTurn(messages, last);
    assert OwnTurn(messages, last.(trail := last.trail + [i]));
  }

  lemma AssistantRoles(messages: seq<Message>, i: nat)
    requires i < |messages| && messages[i].role == Assistant
    ensures OwnRoles(messages, AssistantTurns(messages, i))
  {
    assert OwnTurn(messages, AssistantTurn(i)) && OwnTurn(messages, ToolTurn(i + 1));
  }

  lemma StepRoles(messages: seq<Message>, i: nat, st: PlanState)
    requires i < |messages| && OwnRoles(messages, st.turns) && AllTold(messages, st.pending)
    ensures OwnRoles(messages, Step(messages, i, st).0.turns) && AllTold(messages, Step(messages, i, st).0.pending)
  {
    match messages[i].role
    case User =>
      RolesConcat(messages, st.turns, [UserTurn(st.pending, Some(i), [])]);
    case System =>
      if SystemText(messages[i].content) != "" && EndsWithUser(st.turns) {
        TrailRoles(messages, st.turns, i);
      }
    case Assistant =>
      AssistantRoles(messages, i);
      FlushRoles(messages, st);
      RolesConcat(messages, Flush(st), AssistantTurns(messages, i));
  }

  lemma FlushRoles(messages: seq<Message>, st: PlanState)
    requires OwnRoles(messages, st.turns) && AllTold(messages, st.pending)
    ensures OwnRoles(messages, Flush(st))
  {
    RolesConcat(messages, st.turns, [UserTurn(st.pending, None, [])]);
  }

  lemma {:induction false} PlanRoles(messages: seq<Message>, i: nat, st: PlanState)
    requires i <= |messages| && OwnRoles(messages, st.turns) && AllTold(messages, st.pending)
    ensures OwnRoles(messages, PlanFrom(messages, i, st))
    decreases |messages| - i
  {
    if i < |messages| {
      StepRoles(messages, i, st);
      PlanRoles(messages, Step(messages, i, st).1, Step(messages, i, st).0);
    } else {
      FlushRoles(messages, st);
    }
  }

  /** Where the plan puts an answered assistant message. */
  lemma AnsweredPlace(messages: seq<Message>, hasTop: bool, k: nat) returns (p: nat)
    requires k < |messages| && messages[k].role == Assistant && AnswersCall(messages, k)
    ensures var turns := Plan(messages, hasTop);
            && p + 1 < |turns| && turns[p] == AssistantTurn(k) && turns[p + 1] == ToolTurn(k + 1)
            && (p + 2 < |turns| ==> !turns[p + 2].ToolTurn?)
  {
    PlanIsSound(messages, hasTop);
    MessagesKeepTheirPlace(messages, hasTop);
    ShownBelowMeans(messages, |messages|);
    assert Shown(messages, k);
    p := MentionedTurn(Plan(messages, hasTop), k);
    AnsweredThere(messages, Plan(messages, hasTop), k, p);
  }

  lemma PlanIsSound(messages: seq<Message>, hasTop: bool)
    ensures Answered(messages, Plan(messages, hasTop)) && OwnRoles(messages, Plan(messages, hasTop))
  {
    var st := PlanState(if hasTop then [TopTurn] else [], []);
    PlanAnswers(messages, 0, st);
    PlanRoles(messages, 0, st);
  }

  lemma AnsweredThere(messages: seq<Message>, turns: seq<Turn>, k: nat, p: nat)
    requires k < |messages| && messages[k].role == Assistant && AnswersCall(messages, k)
    requires Answered(messages, turns) && OwnRoles(messages, turns)
    requires p < |turns| && k in Mentioned(turns[p])
    ensures p + 1 < |turns| && turns[p] == AssistantTurn(k) && turns[p + 1] == ToolTurn(k + 1)
    ensures p + 2 < |turns| ==> !turns[p + 2].ToolTurn?
  {
    OwnPlace(messages, turns[p], k);
    assert AnsweredAt(messages, turns, p);
    if p + 2 < |turns| {
      assert AnsweredAt(messages, turns, p + 2);
    }
  }

  lemma RenderPair(messages: seq<Message>, top: string, k: nat)
    requires k + 1 < |messages|
    ensures RenderAll(messages, top, [AssistantTurn(k), ToolTurn(k + 1)])
              == [ConvertAssistant(messages[k].content)] + ToolMessages(messages[k + 1].content)
  {
    hide RenderAll, ConvertAssistant, ToolMessages;
    RenderAllConcat(messages, top, [AssistantTurn(k)], [ToolTurn(k + 1)]);
    assert [AssistantTurn(k)] + [ToolTurn(k + 1)] == [AssistantTurn(k), ToolTurn(k + 1)];
    RenderOne(messages, top, AssistantTurn(k));
    RenderOne(messages, top, ToolTurn(k + 1));
  }

  lemma RenderedStart(messages: seq<Message>, top: string, turns: seq<Turn>)
    requires turns != [] && !turns[0].ToolTurn?
    ensures var out := RenderAll(messages, top, turns); out != [] && !out[0].ToolMessage?
  {
    hide RenderAll;
    RenderAllConcat(messages, top, [turns[0]], turns[1..]);
    RenderOne(messages, top, turns[0]);
    assert turns == [turns[0]] + turns[1..];
  }

  // ----- what is sent of a message, block by block

  function Results(blocks: seq<Block>): seq<Block> {
    Where(blocks, (block: Block) => block.ToolResultBlock?)
  }

  function Uses(blocks: seq<Block>): seq<Block> {
    Where(blocks, (block: Block) => block.ToolUseBlock?)
  }

  function Texts(blocks: seq<Block>): seq<Block> {
    Where(blocks, (block: Block) => block.TextBlock?)
  }

  /** Texts, and images with a source that can be sent. */
  function Sendable(blocks: seq<Block>): seq<Block> {
    Where(blocks, (block: Block) => block.TextBlock? || (block.ImageBlock? && block.url.Some?))
  }

  predicate IsAnswer(m: Message) {
    m.role == User && m.content.Blocks? && exists j :: 0 <= j < |m.content.blocks| && m.content.blocks[j].ToolResultBlock?
  }

  lemma {:induction false} ResultsMean(blocks: seq<Block>)
    ensures |ResultsOf(blocks)| == |Results(blocks)|
    ensures forall j :: 0 <= j < |Results(blocks)| ==>
              Results(blocks)[j].ToolResultBlock? && ResultsOf(blocks)[j] == ToolMessage(Results(blocks)[j].id, Results(blocks)[j].text)
    ensures Results(blocks) != [] <==> exists j :: 0 <= j < |blocks| && blocks[j].ToolResultBlock?
  {
    WhereSome(blocks, (block: Block) => block.ToolResultBlock?);
    if blocks != [] {
      ResultsMean(blocks[1..]);
    }
  }

  lemma AnswersCallIff(messages: seq<Message>, i: nat)
    ensures AnswersCall(messages, i) <==> i + 1 < |messages| && IsAnswer(messages[i + 1])
  {
    if i + 1 < |messages| && messages[i + 1].content.Blocks? {
      ResultsMean(messages[i + 1].content.blocks);
    }
  }

  lemma {:induction false} CallsMean(blocks: seq<Block>)
    ensures |CallsOf(blocks)| == |Uses(blocks)|
    ensures forall j :: 0 <= j < |Uses(blocks)| ==>
              && Uses(blocks)[j].ToolUseBlock?
              && CallsOf(blocks)[j].id == Uses(blocks)[j].id && CallsOf(blocks)[j].name == Uses(blocks)[j].name
              && CallsOf(blocks)[j].input == Uses(blocks)[j].input
  {
    if blocks != [] {
      CallsMean(blocks[1..]);
    }
  }

  function BlockText(block: Block): string {
    if block.TextBlock? then block.text else ""
  }

  function TextList(blocks: seq<Block>): seq<string> {
    seq(|Texts(blocks)|, j requires 0 <= j < |Texts(blocks)| => BlockText(Texts(blocks)[j]))
  }

  lemma {:induction false} TextsMean(blocks: seq<Block>)
    ensures |TextsOf(blocks)| == |Texts(blocks)|
    ensures forall j :: 0 <= j < |Texts(blocks)| ==> Texts(blocks)[j].TextBlock? && TextsOf(blocks)[j] == Texts(blocks)[j].text
  {
    if blocks != [] {
      TextsMean(blocks[1..]);
    }
  }

  lemma TextsAreList(blocks: seq<Block>)
    ensures TextsOf(blocks) == TextList(blocks)
  {
    TextsMean(blocks);
  }

  /** The texts one after the other, with `between` between any two. */
  function Run(texts: seq<string>, between: string): string {
    if texts == [] then ""
    else Run(texts[..|texts| - 1], between) + (if |texts| == 1 then "" else between) + texts[|texts| - 1]
  }

  lemma {:induction false} ConcatIsRun(texts: seq<string>)
    ensures Concat(texts) == Run(texts, "")
  {
    if texts != [] {
      var front, last := texts[..|texts| - 1], texts[|texts| - 1];
      ConcatIsRun(front);
      ConcatAppend(front, last);
      LastApart(texts);
    }
  }

  lemma {:induction false} ConcatAppend(texts: seq<string>, last: string)
    ensures Concat(texts + [last]) == Concat(texts) + last
  {
    if texts != [] {
      assert (texts + [last])[1..] == texts[1..] + [last];
      ConcatAppend(texts[1..], last);
    } else {
      assert ([] + [last])[1..] == [];
    }
  }

  lemma {:induction false} JoinIsRun(texts: seq<string>)
    ensures Join(texts) == Run(texts, "\n\n")
  {
    if texts != [] {
      var front, last := texts[..|texts| - 1], texts[|texts| - 1];
      JoinIsRun(front);
      LastApart(texts);
      if front != [] {
        JoinAppend(front, last);
      }
    }
  }

  /** An assistant message: its text in one piece, or none, and one call per tool use, in order. */
  lemma AssistantMeans(content: Content)
    ensures var out := ConvertAssistant(content);
            && out.AssistantMessage?
            && match content
               case Plain(text) => out.said == Some(text) && out.calls == []
               case Blocks(blocks) =>
                 && (Texts(blocks) == [] ==> out.said == None)
                 && (Texts(blocks) != [] ==>
                       out.said == Some(Run(TextList(blocks), "")))
                 && |out.calls| == |Uses(blocks)|
                 && forall j :: 0 <= j < |out.calls| ==>
                      && Uses(blocks)[j].ToolUseBlock? && out.calls[j].id == Uses(blocks)[j].id
                      && out.calls[j].name == Uses(blocks)[j].name && out.calls[j].input == Uses(blocks)[j].input
  {
    if content.Blocks? {
      TextsMean(content.blocks);
      TextsAreList(content.blocks);
      CallsMean(content.blocks);
      ConcatIsRun(TextsOf(content.blocks));
      assert Texts(content.blocks) == [] <==> TextsOf(content.blocks) == [];
    }
  }

  lemma {:induction false} PartsMean(blocks: seq<Block>)
    ensures |PartsOf(blocks)| == |Sendable(blocks)|
    ensures forall j :: 0 <= j < |Sendable(blocks)| ==>
              match Sendable(blocks)[j]
              case TextBlock(text) => PartsOf(blocks)[j] == TextPart(text)
              case ImageBlock(Some(url)) => PartsOf(blocks)[j] == ImagePart(url)
              case _ => false
  {
    if blocks != [] {
      PartsMean(blocks[1..]);
    }
  }

  /** A user message: a plain text, a single text block as one, or one part per text and sendable image, in order. */
  lemma UserMeans(content: Content)
    ensures match content
            case Plain(text) => ConvertUser(content) == UserText(text)
            case Blocks(blocks) =>
              var sendable := Sendable(blocks);
              if |sendable| == 1 && sendable[0].TextBlock? then ConvertUser(content) == UserText(sendable[0].text)
              else
                && ConvertUser(content).UserParts? && |ConvertUser(content).parts| == |sendable|
                && forall j :: 0 <= j < |sendable| ==>
                     match sendable[j]
                     case TextBlock(text) => ConvertUser(content).parts[j] == TextPart(text)
                     case ImageBlock(Some(url)) => ConvertUser(content).parts[j] == ImagePart(url)
                     case _ => false
  {
    if content.Blocks? {
      PartsMean(content.blocks);
    }
  }

  /** A system text: a plain text or the text blocks joined by blank lines, without white space at its ends. */
  lemma SystemMeans(content: Content) returns (before: string, after: string)
    ensures Blank(before) && Blank(after)
    ensures match content
            case Plain(text) => text == before + SystemText(content) + after
            case Blocks(blocks) =>
              Run(TextList(blocks), "\n\n")
                == before + SystemText(content) + after
    ensures SystemText(content) != "" ==>
              !IsSpace(SystemText(content)[0]) && !IsSpace(SystemText(content)[|SystemText(content)| - 1])
  {
    hide TextList, TextsOf, Run, Join, Strip, Blank, IsSpace;
    match content
    case Plain(text) => before, after := StripMeans(text);
    case Blocks(blocks) =>
      TextsAreList(blocks);
      JoinIsRun(TextsOf(blocks));
      before, after := StripMeans(Join(TextsOf(blocks)));
  }

  lemma {:induction false} BlankJoin(texts: seq<string>)
    ensures Blank(Join(texts)) <==> forall j :: 0 <= j < |texts| ==> Blank(texts[j])
  {
    if |texts| > 1 {
      BlankJoin(texts[1..]);
      BlankConcat(texts[0], "\n\n");
      BlankConcat(texts[0] + "\n\n", Join(texts[1..]));
      assert forall j :: 0 < j < |texts| ==> texts[j] == texts[1..][j - 1];
    }
  }

  lemma BlankConcat(a: string, b: string)
    ensures Blank(a + b) <==> Blank(a) && Blank(b)
  {
    if Blank(a + b) {
      forall i | 0 <= i < |a| ensures IsSpace(a[i]) { assert (a + b)[i] == a[i]; }
      forall i | 0 <= i < |b| ensures IsSpace(b[i]) { assert (a + b)[|a| + i] == b[i]; }
    }
  }

  /** What is worth sending: text that is not all white space, or an image. */
  predicate Visible(content: Content) {
    match content
    case Plain(text) => !Blank(text)
    case Blocks(blocks) => exists j :: 0 <= j < |Sendable(blocks)| && (Sendable(blocks)[j].ImageBlock? || !Blank(BlockText(Sendable(blocks)[j])))
  }

  lemma VisibleIff(content: Content)
    ensures HasVisibleContent(ConvertUser(content)) <==> Visible(content)
  {
    UserMeans(content);
    match ConvertUser(content)
    case UserText(text) => var _, _ := StripMeans(text);
    case UserParts(parts) =>
      forall j | 0 <= j < |parts| && parts[j].TextPart? ensures Strip(parts[j].text) == "" <==> Blank(parts[j].text) {
        var _, _ := StripMeans(parts[j].text);
      }
  }

  /** Which messages show: system texts that are not blank, assistant messages, and user messages but for bare answers to calls. */
  lemma ShownMeans(messages: seq<Message>, k: nat)
    requires k < |messages|
    ensures Shown(messages, k) <==>
            match messages[k].role
            case System =>
              (match messages[k].content
               case Plain(text) => !Blank(text)
               case Blocks(blocks) => exists j :: 0 <= j < |Texts(blocks)| && !Blank(BlockText(Texts(blocks)[j])))
            case Assistant => true
            case User => !(k > 0 && messages[k - 1].role == Assistant && IsAnswer(messages[k])) || Visible(messages[k].content)
  {
    var content := messages[k].content;
    VisibleIff(content);
    match content
    case Plain(text) => var _, _ := StripMeans(text);
    case Blocks(blocks) =>
      ResultsMean(blocks);
      TextsMean(blocks);
      BlankJoin(TextsOf(blocks));
      var _, _ := StripMeans(Join(TextsOf(blocks)));
  }

  /** The top-level prompt is the first message, when there is one, and the only system message. */
  lemma TopComesFirst(messages: seq<Message>, top: string)
    ensures var out := RenderAll(messages, top, Plan(messages, top != ""));
            && (top != "" ==> out != [] && out[0] == SystemMessage(top))
            && forall k :: (if top != "" then 1 else 0) <= k < |out| ==> !out[k].SystemMessage?
  {
    var turns := if top != "" then [TopTurn] else [];
    PlanContinues(messages, 0, PlanState(turns, []), turns);
    var plan := Plan(messages, top != "");
    RenderAllConcat(messages, top, turns, plan[|turns|..]);
    assert plan == turns + plan[|turns|..];
    NoSystemRendered(messages, top, plan[|turns|..]);
    if top != "" {
      RenderOne(messages, top, TopTurn);
    } else {
      RenderNone(messages, top);
    }
  }

  /** A plan only grows behind its first turn, or not at all there, and never by the top prompt. */
  lemma {:induction false} PlanContinues(messages: seq<Message>, i: nat, st: PlanState, first: seq<Turn>)
    requires i <= |messages| && first <= st.turns && !EndsWithUser(first)
    requires forall p :: |first| <= p < |st.turns| ==> !st.turns[p].TopTurn?
    ensures first <= PlanFrom(messages, i, st)
    ensures forall p :: |first| <= p < |PlanFrom(messages, i, st)| ==> !PlanFrom(messages, i, st)[p].TopTurn?
    decreases |messages| - i
  {
    if i < |messages| {
      PlanContinues(messages, Step(messages, i, st).1, Step(messages, i, st).0, first);
    }
  }

  lemma {:induction false} NoSystemRendered(messages: seq<Message>, top: string, turns: seq<Turn>)
    requires forall p :: 0 <= p < |turns| ==> !turns[p].TopTurn?
    ensures forall k :: 0 <= k < |RenderAll(messages, top, turns)| ==> !RenderAll(messages, top, turns)[k].SystemMessage?
  {
    if turns != [] {
      var last := turns[|turns| - 1];
      NoSystemRendered(messages, top, turns[..|turns| - 1]);
      if last.ToolTurn? && ContentAt(messages, last.k).Blocks? {
        ResultsAreTool(ContentAt(messages, last.k).blocks);
      }
    }
  }

  /**
   * An assistant message whose next message holds tool results is sent with its text and one
   * call per tool use, directly followed by one tool message per result, with its id and text
   * and in order, and by no tool message after those.
   */
  lemma ToolResultsFollowCalls(messages: seq<Message>, top: string, k: nat)
      returns (before: seq<OpenAiMessage>, said: OpenAiMessage, answers: seq<OpenAiMessage>, after: seq<OpenAiMessage>)
    requires k + 1 < |messages| && messages[k].role == Assistant && IsAnswer(messages[k + 1])
    ensures RenderAll(messages, top, Plan(messages, top != "")) == before + ([said] + answers) + after
    ensures said.AssistantMessage?
    ensures messages[k].content.Blocks? ==>
              var uses := Uses(messages[k].content.blocks);
              |said.calls| == |uses| && forall j :: 0 <= j < |uses| ==>
                uses[j].ToolUseBlock? && said.calls[j].id == uses[j].id && said.calls[j].name == uses[j].name && said.calls[j].input == uses[j].input
    ensures var results := Results(messages[k + 1].content.blocks);
            |answers| == |results| && forall j :: 0 <= j < |results| ==>
              results[j].ToolResultBlock? && answers[j] == ToolMessage(results[j].id, results[j].text)
    ensures after == [] || !after[0].ToolMessage?
  {
    hide RenderAll, ConvertAssistant, ResultsOf, Results, Uses;
    AnswersCallIff(messages, k);
    var turns := Plan(messages, top != "");
    var p := AnsweredPlace(messages, top != "", k);
    var pair, rest := [AssistantTurn(k), ToolTurn(k + 1)], turns[p + 2..];
    assert turns == turns[..p] + pair + rest;
    before, after := RenderAll(messages, top, turns[..p]), RenderAll(messages, top, rest);
    said, answers := ConvertAssistant(messages[k].content), ToolMessages(messages[k + 1].content);
    RenderAllConcat(messages, top, turns[..p] + pair, rest);
    RenderAllConcat(messages, top, turns[..p], pair);
    RenderPair(messages, top, k);
    AssistantMeans(messages[k].content);
    ResultsMean(messages[k + 1].content.blocks);
    if rest != [] {
      RenderedStart(messages, top, rest);
    } else {
      RenderNone(messages, top);
    }
  }

  // ----- every system text is sent, once

  lemma CutAt<T>(s: seq<T>, p: nat)
    requires p < |s|
    ensures s == (s[..p] + [s[p]]) + s[p + 1..]
  {
  }

  /** A turn's messages stand in the output behind those of the turns before it. */
  lemma RenderedAt(messages: seq<Message>, top: string, turns: seq<Turn>, p: nat)
    requires p < |turns|
    ensures RenderAll(messages, top, turns[..p]) + Render(messages, top, turns[p]) <= RenderAll(messages, top, turns)
  {
    hide RenderAll, Render;
    CutAt(turns, p);
    RenderAllConcat(messages, top, turns[..p] + [turns[p]], turns[p + 1..]);
    RenderPush(messages, top, turns[..p], turns[p]);
  }

  lemma OrderAt(turns: seq<Turn>, p: nat)
    requires p < |turns|
    ensures Order(turns) == (Order(turns[..p]) + Mentioned(turns[p])) + Order(turns[p + 1..])
  {
    hide Order, Mentioned;
    CutAt(turns, p);
    OrderConcat(turns[..p] + [turns[p]], turns[p + 1..]);
    OrderPush(turns[..p], turns[p]);
  }

  /** Where the `i`-th message of turn `p` stands in the order. */
  function Rank(turns: seq<Turn>, p: nat, i: nat): nat
    requires p < |turns|
  {
    |Order(turns[..p])| + i
  }

  lemma RankMeans(turns: seq<Turn>, p: nat, i: nat)
    requires p < |turns| && i < |Mentioned(turns[p])|
    ensures Rank(turns, p, i) < |Order(turns)| && Order(turns)[Rank(turns, p, i)] == Mentioned(turns[p])[i]
  {
    hide Order, Mentioned;
    OrderAt(turns, p);
  }

  lemma RanksApart(turns: seq<Turn>, p: nat, i: nat, q: nat, j: nat)
    requires p < q < |turns| && i < |Mentioned(turns[p])|
    ensures Rank(turns, p, i) < Rank(turns, q, j)
  {
    hide Order, Mentioned;
    OrderAt(turns[..q], p);
    assert turns[..q][..p] == turns[..p];
  }

  predicate Ascending(ks: seq<nat>) {
    forall m, n :: 0 <= m < n < |ks| ==> ks[m] < ks[n]
  }

  /** Messages in increasing order are named once. */
  lemma NamedOnce(turns: seq<Turn>, p: nat, i: nat, q: nat, j: nat)
    requires Ascending(Order(turns))
    requires p < |turns| && i < |Mentioned(turns[p])| && q < |turns| && j < |Mentioned(turns[q])|
    requires Mentioned(turns[p])[i] == Mentioned(turns[q])[j]
    ensures p == q && i == j
  {
    hide Order, Mentioned;
    RankMeans(turns, p, i);
    RankMeans(turns, q, j);
    assert Rank(turns, p, i) == Rank(turns, q, j);
    if p < q {
      RanksApart(turns, p, i, q, j);
    } else if q < p {
      RanksApart(turns, q, j, p, i);
    }
  }

  lemma ToldTexts(messages: seq<Message>, ks: seq<nat>)
    requires AllTold(messages, ks)
    ensures AllNonEmpty(SystemTexts(messages, ks))
  {
    forall j | 0 <= j < |ks| ensures SystemTexts(messages, ks)[j] != "" {
      assert IsTold(messages, ks[j]);
    }
  }

  /** Every user turn of a plan is sent as one user message that holds its pieces in order, none of them empty. */
  lemma UserTurnIsSent(messages: seq<Message>, top: string, p: nat)
    requires p < |Plan(messages, top != "")| && Plan(messages, top != "")[p].UserTurn?
    ensures var turns := Plan(messages, top != "");
            var lead, trail := SystemTexts(messages, turns[p].lead), SystemTexts(messages, turns[p].trail);
            && AllNonEmpty(lead) && AllNonEmpty(trail)
            && RenderAll(messages, top, turns[..p]) + [UserMessage(Pieced(lead, OwnContent(messages, turns[p]), trail))]
               <= RenderAll(messages, top, turns)
  {
    var turns := Plan(messages, top != "");
    PlanIsSound(messages, top != "");
    assert OwnTurn(messages, turns[p]);
    ToldTexts(messages, turns[p].lead);
    ToldTexts(messages, turns[p].trail);
    TurnTexts(messages, turns[p]);
    RenderedAt(messages, top, turns, p);
  }

  /**
   * Every non-empty system text is sent, and once: it is piece `i` of exactly one turn, a user
   * turn, before or behind that turn's own message, and that turn is sent with its pieces.
   */
  lemma SystemTextIsSentOnce(messages: seq<Message>, top: string, k: nat) returns (p: nat, i: nat)
    requires IsTold(messages, k)
    ensures var turns := Plan(messages, top != "");
            && p < |turns| && turns[p].UserTurn? && (k in turns[p].lead || k in turns[p].trail)
            && i < |Mentioned(turns[p])| && Mentioned(turns[p])[i] == k
            && (forall q, j :: 0 <= q < |turns| && 0 <= j < |Mentioned(turns[q])| && Mentioned(turns[q])[j] == k ==> q == p && j == i)
            && RenderAll(messages, top, turns[..p])
               + [UserMessage(Pieced(SystemTexts(messages, turns[p].lead), OwnContent(messages, turns[p]), SystemTexts(messages, turns[p].trail)))]
               <= RenderAll(messages, top, turns)
  {
    hide Mentioned, Pieced, OwnContent, RenderAll, OwnTurn;
    var turns := Plan(messages, top != "");
    PlanIsSound(messages, top != "");
    MessagesKeepTheirPlace(messages, top != "");
    ShownBelowMeans(messages, |messages|);
    assert Shown(messages, k);
    p := MentionedTurn(turns, k);
    i :| 0 <= i < |Mentioned(turns[p])| && Mentioned(turns[p])[i] == k;
    OwnPlace(messages, turns[p], k);
    UserTurnIsSent(messages, top, p);
    forall q, j | 0 <= q < |turns| && 0 <= j < |Mentioned(turns[q])| && Mentioned(turns[q])[j] == k ensures q == p && j == i {
      NamedOnce(turns, p, i, q, j);
    }
  }
}
