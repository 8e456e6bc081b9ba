/**
 * Folding tool additions out of a request body, and capping the tools that go
 * upstream.
 *
 * `Python` stands for two conversions of values that are no plain strings or
 * flags: their text, and whether a number is not zero.
 */
module ToolFolding {
  import opened Common
  import opened Json
  import opened ToolVisibility
  import opened Sorting

  datatype Python = Python(text: Option<Json> -> string, isNonZero: string -> bool)

  function FieldIn(value: Json, name: string): Option<Json> {
    if value.JObj? && name in value.fields then Some(value.fields[name]) else None
  }

  predicate Truthy(py: Python, value: Option<Json>) {
    match value
    case None => false
    case Some(JNull) => false
    case Some(JBool(b)) => b
    case Some(JNum(text)) => py.isNonZero(text)
    case Some(JStr(chars)) => chars != ""
    case Some(JArr(items)) => items != []
    case Some(JObj(fields)) => fields != map[]
  }

  // ----- messages

  predicate IsAddition(block: Json) {
    FieldIn(block, "type") == Some(JStr("tool_addition"))
  }

  function KeptBlocks(content: seq<Json>): seq<Json> {
    if content == [] then []
    else KeptBlocks(content[..|content| - 1]) + (if IsAddition(content[|content| - 1]) then [] else [content[|content| - 1]])
  }

  /** The `tool` objects of the addition blocks. */
  function BlockTools(content: seq<Json>): seq<Fields> {
    if content == [] then []
    else
      var last := content[|content| - 1];
      BlockTools(content[..|content| - 1])
      + (if IsAddition(last) then match FieldIn(last, "tool") case Some(JObj(fields)) => [fields] case _ => [] else [])
  }

  function ContentOf(message: Json): Option<seq<Json>> {
    match FieldIn(message, "content")
    case Some(JArr(items)) => Some(items)
    case _ => None
  }

  /** A message without its addition blocks; nothing when those were all it had. */
  function KeptMessage(message: Json): seq<Json> {
    match ContentOf(message)
    case None => [message]
    case Some(content) =>
      var kept := KeptBlocks(content);
      if kept != [] || |kept| == |content| then [JObj(message.fields["content" := JArr(kept)])] else []
  }

  datatype Sweep = Sweep(kept: seq<Json>, additions: seq<Fields>, removed: nat)

  function Swept(messages: seq<Json>): Sweep {
    if messages == [] then Sweep([], [], 0)
    else
      var front, last := Swept(messages[..|messages| - 1]), messages[|messages| - 1];
      var content := ContentOf(last).GetOr([]);
      KeptShorter(content);
      Sweep(front.kept + KeptMessage(last), front.additions + BlockTools(content), front.removed + |content| - |KeptBlocks(content)|)
  }

  lemma {:induction false} KeptShorter(content: seq<Json>)
    ensures |KeptBlocks(content)| <= |content|
    ensures |KeptBlocks(content)| == |content| ==> KeptBlocks(content) == content
    ensures forall k :: 0 <= k < |KeptBlocks(content)| ==> !IsAddition(KeptBlocks(content)[k])
  {
    if content != [] {
      KeptShorter(content[..|content| - 1]);
      assert content == content[..|content| - 1] + [content[|content| - 1]];
    }
  }

  method SweepContent(content: seq<Json>) returns (kept: seq<Json>, tools: seq<Fields>, removed: nat)
    ensures kept == KeptBlocks(content) && tools == BlockTools(content) && removed == |content| - |kept|
  {
    kept, tools, removed := [], [], 0;
    var i := 0;
    while i < |content|
      invariant 0 <= i <= |content|
      invariant kept == KeptBlocks(content[..i]) && tools == BlockTools(content[..i]) && removed == i - |kept|
    {
      assert content[..i + 1][..i] == content[..i];
      var block := content[i];
      if IsAddition(block) {
        removed := removed + 1;
        match FieldIn(block, "tool") {
          case Some(JObj(fields)) => tools := tools + [fields];
          case _ =>
        }
      } else {
        kept := kept + [block];
      }
      i := i + 1;
    }
    assert content[..i] == content;
  }

  method SweepMessage(message: Json) returns (kept: seq<Json>, tools: seq<Fields>, removed: nat)
    ensures kept == KeptMessage(message) && tools == BlockTools(ContentOf(message).GetOr([]))
    ensures removed == |ContentOf(message).GetOr([])| - |KeptBlocks(ContentOf(message).GetOr([]))|
  {
    var content := ContentOf(message);
    if content.None? {
      return [message], [], 0;
    }
    var blocks;
    blocks, tools, removed := SweepContent(content.value);
    kept := [];
    if blocks != [] || |blocks| == |content.value| {
      kept := [JObj(message.fields["content" := JArr(blocks)])];
    }
  }

  method SweepMessages(messages: seq<Json>) returns (sweep: Sweep)
    ensures sweep == Swept(messages)
  {
    hide KeptMessage, BlockTools, KeptBlocks, ContentOf;
    sweep := Sweep([], [], 0);
    var i := 0;
    while i < |messages|
      invariant 0 <= i <= |messages|
      invariant sweep == Swept(messages[..i])
    {
      assert messages[..i + 1][..i] == messages[..i];
      var kept, tools, removed := SweepMessage(messages[i]);
      sweep := Sweep(sweep.kept + kept, sweep.additions + tools, sweep.removed + removed);
      i := i + 1;
    }
    assert messages[..i] == messages;
  }

  /** All blocks of all messages, in order. */
  function Blocks(messages: seq<Json>): seq<Json> {
    if messages == [] then []
    else Blocks(messages[..|messages| - 1]) + ContentOf(messages[|messages| - 1]).GetOr([])
  }

  lemma {:induction false} KeptConcat(a: seq<Json>, b: seq<Json>)
    ensures KeptBlocks(a + b) == KeptBlocks(a) + KeptBlocks(b)
  {
    if b == [] {
      assert a + b == a;
    } else {
      var front, last := b[..|b| - 1], b[|b| - 1];
      KeptConcat(a, front);
      assert a + b == (a + front) + [last] && (a + b)[..|a + b| - 1] == a + front;
      Associative(KeptBlocks(a), KeptBlocks(front), if IsAddition(last) then [] else [last]);
    }
  }

  lemma BlocksPush(messages: seq<Json>, more: seq<Json>)
    requires |more| <= 1
    ensures Blocks(messages + more) == Blocks(messages) + (if more == [] then [] else ContentOf(more[0]).GetOr([]))
  {
    if more == [] {
      assert messages + more == messages;
    } else {
      assert (messages + more)[..|messages|] == messages;
    }
  }

  lemma KeptMessageBlocks(message: Json)
    ensures |KeptMessage(message)| <= 1
    ensures KeptBlocks(ContentOf(message).GetOr([])) ==
            if KeptMessage(message) == [] then [] else ContentOf(KeptMessage(message)[0]).GetOr([])
  {
    var content := ContentOf(message);
    if content.Some? {
      hide KeptBlocks;
      KeptShorter(content.value);
      var kept := KeptBlocks(content.value);
      var after := JObj(message.fields["content" := JArr(kept)]);
      assert FieldIn(after, "content") == Some(JArr(kept));
    } else {
      assert KeptBlocks([]) == [];
    }
  }

  /** Folding takes the addition blocks out of the conversation and leaves every other block, in order. */
  lemma {:induction false} OnlyAdditionsGo(messages: seq<Json>)
    ensures Blocks(Swept(messages).kept) == KeptBlocks(Blocks(messages))
    ensures Swept(messages).removed == |Blocks(messages)| - |KeptBlocks(Blocks(messages))|
  {
    if messages != [] {
      var front, last := messages[..|messages| - 1], messages[|messages| - 1];
      var content := ContentOf(last).GetOr([]);
      hide KeptMessage, BlockTools, KeptBlocks, ContentOf;
      OnlyAdditionsGo(front);
      KeptConcat(Blocks(front), content);
      KeptMessageBlocks(last);
      BlocksPush(Swept(front).kept, KeptMessage(last));
    } else {
      assert KeptBlocks([]) == [];
    }
  }

  // ----- tools

  function ToolObjects(items: seq<Json>): seq<Fields> {
    if items == [] then []
    else ToolObjects(items[..|items| - 1]) + (if items[|items| - 1].JObj? then [items[|items| - 1].fields] else [])
  }

  function RequestTools(payload: Fields): (tools: Option<seq<Fields>>)
    ensures tools.Some? <==> "tools" in payload && payload["tools"].JArr?
    ensures tools.Some? ==> tools.value == ToolObjects(payload["tools"].items)
  {
    if "tools" in payload && payload["tools"].JArr? then Some(ToolObjects(payload["tools"].items)) else None
  }

  function RequestMessages(payload: Fields): (messages: seq<Json>)
    ensures "messages" in payload && payload["messages"].JArr? ==> payload["messages"] == JArr(messages)
    ensures messages != [] ==> "messages" in payload && payload["messages"].JArr?
  {
    if "messages" in payload && payload["messages"].JArr? then payload["messages"].items else []
  }

  predicate Deferred(py: Python, tool: Fields)
    ensures Deferred(py, tool) ==> "defer_loading" in tool
    ensures "defer_loading" in tool && tool["defer_loading"].JBool? ==> (Deferred(py, tool) <==> tool["defer_loading"] == JBool(true))
    ensures "defer_loading" in tool && tool["defer_loading"].JNull? ==> !Deferred(py, tool)
    ensures "defer_loading" in tool && tool["defer_loading"].JNum? ==> (Deferred(py, tool) <==> py.isNonZero(tool["defer_loading"].text))
    ensures "defer_loading" in tool && (tool["defer_loading"].JStr? || tool["defer_loading"].JArr? || tool["defer_loading"].JObj?) ==>
              (Deferred(py, tool) <==> tool["defer_loading"] !in {JStr(""), JArr([]), JObj(map[])})
  {
    Truthy(py, if "defer_loading" in tool then Some(tool["defer_loading"]) else None)
  }

  function ToolName(py: Python, tool: Fields): (name: string)
    ensures "name" in tool && tool["name"].JStr? ==> tool["name"] == JStr(name)
    ensures "name" in tool && !tool["name"].JStr? ==> name == py.text(Some(tool["name"]))
    ensures "name" !in tool ==> name == py.text(None)
  {
    if "name" in tool && tool["name"].JStr? then tool["name"].chars
    else py.text(if "name" in tool then Some(tool["name"]) else None)
  }

  function RawTool(definition: Fields): (tool: Option<Fields>)
    ensures tool.Some? ==> tool.value == definition
    ensures tool.Some? <==> definition.Keys >= {"name", "input_schema"} && definition["name"].JStr? && definition["input_schema"].JObj?
  {
    if "name" in definition && definition["name"].JStr? && "input_schema" in definition && definition["input_schema"].JObj?
    then Some(definition)
    else None
  }

  function RawShape(py: Python): Shape<Fields> {
    Shape((tool: Fields) => ToolName(py, tool), (tool: Fields) => Deferred(py, tool), (definition: Fields) => RawTool(definition))
  }

  predicate HasDeferred(py: Python, tools: seq<Fields>) {
    exists i :: 0 <= i < |tools| && Deferred(py, tools[i])
  }

  /** Neither an addition block nor a deferred tool. */
  predicate NothingToFold(py: Python, payload: Fields) {
    Swept(RequestMessages(payload)).removed == 0 && !HasDeferred(py, RequestTools(payload).GetOr([]))
  }

  function Undeferred(tools: seq<Fields>): seq<Json> {
    seq(|tools|, i requires 0 <= i < |tools| => JObj(tools[i] - {"defer_loading"}))
  }

  datatype FoldResult = FoldResult(
    payload: Fields,
    blocksRemoved: nat,
    toolsAdded: nat,
    toolsHidden: nat,
    invalid: seq<string>,
    unresolved: seq<string>)

  function Rewritten(payload: Fields, sweep: Sweep, tools: Option<seq<Fields>>): Fields {
    var messages := if sweep.removed > 0 then payload["messages" := JArr(sweep.kept)] else payload;
    if tools.Some? then messages["tools" := JArr(Undeferred(tools.value))] else messages
  }

  /**
   * The body without addition blocks and with the tools the model could see: nothing when there
   * is nothing to fold. A folded body has nothing left to fold.
   */
  method FoldToolAdditions(py: Python, payload: Fields) returns (r: Option<FoldResult>)
    ensures r.None? <==> NothingToFold(py, payload)
    ensures r.Some? ==> NothingToFold(py, r.value.payload)
    ensures r.Some? && RequestTools(payload).None? ==>
              r.value == FoldResult(Rewritten(payload, Swept(RequestMessages(payload)), None),
                                    Swept(RequestMessages(payload)).removed, 0, 0, [], [])
    ensures r.Some? && RequestTools(payload).Some? ==>
              var sweep, tools := Swept(RequestMessages(payload)), RequestTools(payload).value;
              var own := Own(RawShape(py), Referenced(sweep.additions), tools);
              var supplied := Supplied(RawShape(py), tools, Defined(RawShape(py), sweep.additions));
              && r.value.payload == Rewritten(payload, sweep, Some(own + supplied))
              && r.value.blocksRemoved == sweep.removed
              && r.value.toolsAdded == |supplied| && r.value.toolsHidden + |own| == |tools|
              && r.value.invalid == Invalid(RawShape(py), sweep.additions)
              && multiset(r.value.unresolved) == multiset(Missing(RawShape(py), tools, sweep.additions))
              && SortedBy(Alphabetical(), r.value.unresolved)
  {
    var tools := RequestTools(payload);
    var sweep := SweepMessages(RequestMessages(payload));
    if sweep.removed == 0 && (tools.None? || !HasDeferred(py, tools.value)) {
      return None;
    }
    if tools.None? {
      FoldedHasNothing(py, payload, None);
      return Some(FoldResult(Rewritten(payload, sweep, None), sweep.removed, 0, 0, [], []));
    }
    var v := ResolveVisible(RawShape(py), tools.value, sweep.additions);
    OwnShorter(RawShape(py), Referenced(sweep.additions), tools.value);
    FoldedHasNothing(py, payload, Some(v.Visible()));
    r := Some(FoldResult(Rewritten(payload, sweep, Some(v.Visible())), sweep.removed, |v.supplied|, |tools.value| - |v.own|,
                         v.invalid, v.unresolved));
  }

  lemma {:induction false} OwnShorter<T>(shape: Shape<T>, referenced: set<string>, tools: seq<T>)
    ensures |Own(shape, referenced, tools)| <= |tools|
  {
    if tools != [] {
      OwnShorter(shape, referenced, tools[..|tools| - 1]);
    }
  }

  // ----- what folding does to a body

  function IsToolAddition(): Json -> bool {
    (block: Json) => block.JObj? && "type" in block.fields && block.fields["type"] == JStr("tool_addition")
  }

  function IsOther(): Json -> bool {
    (block: Json) => !IsToolAddition()(block)
  }

  /** The content blocks of a message; a message without a content list has none. */
  function BlocksOf(message: Json): seq<Json> {
    if message.JObj? && "content" in message.fields && message.fields["content"].JArr? then message.fields["content"].items else []
  }

  lemma AdditionIff(block: Json)
    ensures IsOther()(block) <==> !IsAddition(block)
    ensures IsToolAddition()(block) <==> IsAddition(block)
    ensures HasTool()(block) <==> IsAddition(block) && FieldIn(block, "tool").Some? && FieldIn(block, "tool").value.JObj?
  {
    assert IsToolAddition()(block) <==> IsAddition(block);
  }

  lemma {:induction false} KeptAreOthers(content: seq<Json>)
    ensures KeptBlocks(content) == Where(content, IsOther())
  {
    if content != [] {
      LastApart(content);
      KeptAreOthers(content[..|content| - 1]);
      AdditionIff(content[|content| - 1]);
      WherePush(content[..|content| - 1], content[|content| - 1], IsOther());
    }
  }

  /** The tools of the additions that have one. */
  function HasTool(): Json -> bool {
    (block: Json) => IsToolAddition()(block) && "tool" in block.fields && block.fields["tool"].JObj?
  }

  lemma {:induction false} ToolsOfAdditions(content: seq<Json>)
    ensures var blocks := Where(content, HasTool());
            && |BlockTools(content)| == |blocks|
            && forall j :: 0 <= j < |blocks| ==>
                 blocks[j].JObj? && "tool" in blocks[j].fields && blocks[j].fields["tool"] == JObj(BlockTools(content)[j])
  {
    if content != [] {
      LastApart(content);
      ToolsOfAdditions(content[..|content| - 1]);
      AdditionIff(content[|content| - 1]);
      WherePush(content[..|content| - 1], content[|content| - 1], HasTool());
    }
  }

  /**
   * A message keeps its other blocks in order and every other field; one without a content list
   * stays as it is, and one that had nothing but additions goes.
   */
  lemma KeptMessageMeans(message: Json)
    ensures var blocks, others := BlocksOf(message), Where(BlocksOf(message), IsOther());
            if message.JObj? && "content" in message.fields && message.fields["content"].JArr? then
              if others == [] && blocks != [] then KeptMessage(message) == []
              else KeptMessage(message) == [JObj(message.fields["content" := JArr(others)])]
            else KeptMessage(message) == [message]
  {
    if message.JObj? && "content" in message.fields && message.fields["content"].JArr? {
      KeptAreOthers(message.fields["content"].items);
    }
  }

  /** Sweeping goes message by message, collects the tools of the additions, and counts them. */
  lemma SweptPush(messages: seq<Json>, last: Json)
    ensures var before, after := Swept(messages), Swept(messages + [last]);
            && after.kept == before.kept + KeptMessage(last)
            && after.additions == before.additions + BlockTools(BlocksOf(last))
            && after.removed == before.removed + |Where(BlocksOf(last), IsToolAddition())|
    ensures Swept([]) == Sweep([], [], 0)
  {
    hide KeptBlocks, BlockTools, KeptMessage;
    assert (messages + [last])[..|messages|] == messages;
    KeptAreOthers(BlocksOf(last));
    Halves(BlocksOf(last));
  }

  lemma {:induction false} Halves(content: seq<Json>)
    ensures |Where(content, IsOther())| + |Where(content, IsToolAddition())| == |content|
  {
    if content != [] {
      Halves(content[1..]);
    }
  }

  /** Only the objects of a list of tools are tools. */
  lemma {:induction false} ToolObjectsMean(items: seq<Json>)
    ensures var objects := Where(items, (item: Json) => item.JObj?);
            |ToolObjects(items)| == |objects| && forall j :: 0 <= j < |objects| ==> objects[j] == JObj(ToolObjects(items)[j])
  {
    if items != [] {
      LastApart(items);
      ToolObjectsMean(items[..|items| - 1]);
      WherePush(items[..|items| - 1], items[|items| - 1], (item: Json) => item.JObj?);
    }
  }

  /** A rewritten body: the swept messages if any block went, the visible tools without their flag, everything else as it was. */
  lemma RewrittenMeans(payload: Fields, sweep: Sweep, tools: Option<seq<Fields>>)
    ensures var after := Rewritten(payload, sweep, tools);
            && (forall key :: key in payload && key != "messages" && key != "tools" ==> key in after && after[key] == payload[key])
            && (forall key :: key in after ==> key in payload || (key == "messages" && sweep.removed > 0) || (key == "tools" && tools.Some?))
            && (sweep.removed > 0 ==> "messages" in after && after["messages"] == JArr(sweep.kept))
            && (sweep.removed == 0 && "messages" in payload ==> "messages" in after && after["messages"] == payload["messages"])
            && (tools.None? && "tools" in payload ==> "tools" in after && after["tools"] == payload["tools"])
            && (tools.Some? ==>
                  && "tools" in after && after["tools"].JArr? && |after["tools"].items| == |tools.value|
                  && forall j :: 0 <= j < |tools.value| ==>
                       var tool := after["tools"].items[j];
                       tool.JObj? && forall key :: (key in tool.fields <==> key in tools.value[j] && key != "defer_loading")
                                                   && (key in tool.fields ==> tool.fields[key] == tools.value[j][key]))
  {
  }

  /** Some block of the conversation is an addition. */
  predicate AnyAddition(messages: seq<Json>) {
    exists k, j :: 0 <= k < |messages| && 0 <= j < |BlocksOf(messages[k])| && IsToolAddition()(BlocksOf(messages[k])[j])
  }

  lemma {:induction false} RemovedIff(messages: seq<Json>)
    ensures Swept(messages).removed > 0 <==> AnyAddition(messages)
  {
    if messages != [] {
      var n := |messages| - 1;
      hide Swept, BlocksOf, IsToolAddition;
      LastApart(messages);
      RemovedIff(messages[..n]);
      SweptPush(messages[..n], messages[n]);
      WhereSome(BlocksOf(messages[n]), IsToolAddition());
      assert forall k :: 0 <= k < n ==> messages[..n][k] == messages[k];
    }
  }

  /** There is nothing to fold exactly when no block is an addition and no tool is deferred. */
  lemma NothingIff(py: Python, payload: Fields)
    ensures NothingToFold(py, payload) <==>
            && !AnyAddition(RequestMessages(payload))
            && var tools := RequestTools(payload).GetOr([]); forall j :: 0 <= j < |tools| ==> !Deferred(py, tools[j])
  {
    hide Swept, Deferred, AnyAddition;
    RemovedIff(RequestMessages(payload));
  }

  // ----- folding again

  lemma {:induction false} KeptTwice(content: seq<Json>)
    ensures KeptBlocks(KeptBlocks(content)) == KeptBlocks(content)
  {
    if content != [] {
      var front, last := content[..|content| - 1], content[|content| - 1];
      KeptTwice(front);
      if !IsAddition(last) {
        assert (KeptBlocks(front) + [last])[..|KeptBlocks(front)|] == KeptBlocks(front);
      } else {
        assert KeptBlocks(front) + [] == KeptBlocks(front);
      }
    }
  }

  lemma {:induction false} ToolObjectsOf(tools: seq<Fields>)
    ensures ToolObjects(Undeferred(tools)) == seq(|tools|, i requires 0 <= i < |tools| => tools[i] - {"defer_loading"})
  {
    if tools != [] {
      var n := |tools| - 1;
      ToolObjectsOf(tools[..n]);
      assert Undeferred(tools)[..n] == Undeferred(tools[..n]);
    }
  }

  lemma FoldedHasNothing(py: Python, payload: Fields, visible: Option<seq<Fields>>)
    requires visible.None? ==> RequestTools(payload).None?
    ensures NothingToFold(py, Rewritten(payload, Swept(RequestMessages(payload)), visible))
  {
    hide KeptBlocks, Truthy, Swept, Undeferred;
    var sweep := Swept(RequestMessages(payload));
    var after := Rewritten(payload, sweep, visible);
    OnlyAdditionsGo(RequestMessages(payload));
    KeptTwice(Blocks(RequestMessages(payload)));
    OnlyAdditionsGo(RequestMessages(after));
    assert RequestMessages(after) == if sweep.removed > 0 then sweep.kept else RequestMessages(payload);
    if visible.Some? {
      ToolObjectsOf(visible.value);
      NoneDeferred(py, visible.value, RequestTools(after).value);
    }
  }

  lemma NoneDeferred(py: Python, tools: seq<Fields>, stripped: seq<Fields>)
    requires stripped == seq(|tools|, i requires 0 <= i < |tools| => tools[i] - {"defer_loading"})
    ensures !HasDeferred(py, stripped)
  {
  }

  // ----- the cap on the number of tools

  function Picked<T>(tools: seq<T>, keep: T -> bool): seq<T> {
    if tools == [] then []
    else Picked(tools[..|tools| - 1], keep) + (if keep(tools[|tools| - 1]) then [tools[|tools| - 1]] else [])
  }

  /** Built-in tools first, all of them, then the others up to the cap. */
  function CapTools<T>(tools: seq<T>, most: int, isBuiltin: T -> bool): seq<T> {
    if most <= 0 || |tools| <= most then tools
    else
      var builtins, others := Picked(tools, isBuiltin), Picked(tools, (tool: T) => !isBuiltin(tool));
      var slots := if most > |builtins| then most - |builtins| else 0;
      builtins + (if slots < |others| then others[..slots] else others)
  }

  lemma {:induction false} PickedSplits<T>(tools: seq<T>, keep: T -> bool, drop: T -> bool)
    requires forall tool :: drop(tool) <==> !keep(tool)
    ensures |Picked(tools, keep)| + |Picked(tools, drop)| == |tools|
  {
    if tools != [] {
      PickedSplits(tools[..|tools| - 1], keep, drop);
    }
  }

  lemma {:induction false} PickedIsWhere<T>(tools: seq<T>, keep: T -> bool)
    ensures Picked(tools, keep) == Where(tools, keep)
  {
    if tools != [] {
      LastApart(tools);
      PickedIsWhere(tools[..|tools| - 1], keep);
      WherePush(tools[..|tools| - 1], tools[|tools| - 1], keep);
    }
  }

  /** A list that needs a cap becomes its built-in tools, then as many of the others as the cap leaves room for, both in order. */
  lemma CapMeans<T>(tools: seq<T>, most: int, isBuiltin: T -> bool)
    ensures most <= 0 || |tools| <= most ==> CapTools(tools, most, isBuiltin) == tools
    ensures 0 < most < |tools| ==>
              var capped := CapTools(tools, most, isBuiltin);
              var builtins, others := Where(tools, isBuiltin), Where(tools, (tool: T) => !isBuiltin(tool));
              if |builtins| >= most then capped == builtins
              else |others| > most - |builtins| && capped == builtins + others[..most - |builtins|]
  {
    var other := (tool: T) => !isBuiltin(tool);
    PickedSplits(tools, isBuiltin, other);
    PickedIsWhere(tools, isBuiltin);
    PickedIsWhere(tools, other);
  }

  /** The capped list is within the cap exactly when the built-in tools alone are; then a longer list fills it. */
  lemma CapHoldsIff<T>(tools: seq<T>, most: int, isBuiltin: T -> bool)
    requires most > 0
    ensures |CapTools(tools, most, isBuiltin)| <= most <==> |tools| <= most || |Picked(tools, isBuiltin)| <= most
    ensures |tools| > most && |Picked(tools, isBuiltin)| <= most ==> |CapTools(tools, most, isBuiltin)| == most
  {
    PickedSplits(tools, isBuiltin, (tool: T) => !isBuiltin(tool));
  }

  /** A list that stays above its cap: of two built-in tools and another one, a cap of one keeps both built-in tools. */
  lemma BuiltinsPassTheCap()
    ensures CapTools(["Bash", "mcp__files", "Read"], 1, (name: string) => name == "Bash" || name == "Read") == ["Bash", "Read"]
  {
    var isBuiltin := (name: string) => name == "Bash" || name == "Read";
    var others := (name: string) => !isBuiltin(name);
    PickedThree("Bash", "mcp__files", "Read", isBuiltin);
    PickedThree("Bash", "mcp__files", "Read", others);
  }

  lemma PickedThree<T>(x: T, y: T, z: T, keep: T -> bool)
    ensures Picked([x, y, z], keep) ==
            (if keep(x) then [x] else []) + (if keep(y) then [y] else []) + (if keep(z) then [z] else [])
  {
    assert [x, y, z][..2] == [x, y] && [x, y][..1] == [x] && [x][..0] == [];
    assert Picked([x], keep) == if keep(x) then [x] else [];
    assert Picked([x, y], keep) == Picked([x], keep) + (if keep(y) then [y] else []);
  }
}
