/** The assembler: the assistant message a client sees, rebuilt from the emitted events. */
module Assembler {
  import opened Common
  import opened Events
  import opened Json

  /** A content block of an Anthropic message. */
  datatype Content = Text(text: string) | ToolUseContent(id: string, name: string, input: Json)

  /** An Anthropic message as the complete-response converters return it. */
  datatype Reply = Reply(id: string, content: seq<Content>, stop: StopReason, usage: Usage)

  /** A block being assembled. */
  datatype Part = TextPart(text: string) | ToolPart(id: string, name: string, partialJson: string)

  datatype Assembly = Assembly(id: Option<string>, blocks: map<nat, Part>)

  const NOTHING := Assembly(None, map[])

  /** A frame of the relayed stream: an event, or something that is not one and is passed over. */
  datatype Frame = Emitted(event: Event) | Opaque

  function OpenPart(kind: BlockKind): Part {
    match kind
    case TextBlock => TextPart("")
    case ToolBlock(id, name) => ToolPart(id, name, "")
  }

  function Take(a: Assembly, e: Event): Assembly {
    match e
    case MessageStart(id) => a.(id := Some(id))
    case BlockStart(index, kind) => a.(blocks := a.blocks[index := OpenPart(kind)])
    case TextDelta(index, text) =>
      if index in a.blocks && a.blocks[index].TextPart?
      then a.(blocks := a.blocks[index := TextPart(a.blocks[index].text + text)])
      else a
    case InputDelta(index, json) =>
      if index in a.blocks && a.blocks[index].ToolPart?
      then var p := a.blocks[index]; a.(blocks := a.blocks[index := p.(partialJson := p.partialJson + json)])
      else a
    case _ => a
  }

  function TakeAll(a: Assembly, events: seq<Event>): Assembly
    decreases |events|
  {
    if events == [] then a else TakeAll(Take(a, events[0]), events[1..])
  }

  lemma {:induction false} TakeAllConcat(a: Assembly, x: seq<Event>, y: seq<Event>)
    ensures TakeAll(a, x + y) == TakeAll(TakeAll(a, x), y)
    decreases |x|
  {
    if x == [] {
      assert x + y == y;
    } else {
      assert (x + y)[1..] == x[1..] + y;
      TakeAllConcat(Take(a, x[0]), x[1..], y);
    }
  }

  /** The input of a finished tool block: what its text parses to when that is an object, else empty. */
  function InputOf(partialJson: string): Json {
    match Loads(partialJson)
    case Some(JObj(fields)) => JObj(fields)
    case _ => JObj(map[])
  }

  function Close(p: Part): Content {
    match p
    case TextPart(text) => Text(text)
    case ToolPart(id, name, partialJson) => ToolUseContent(id, name, InputOf(partialJson))
  }

  /** A non-empty set of indices has a least one. */
  lemma {:induction false} LeastExists(keys: set<nat>) returns (least: nat)
    requires keys != {}
    ensures least in keys && forall j :: j in keys ==> least <= j
    decreases |keys|
  {
    var first :| first in keys;
    var rest := keys - {first};
    assert keys == rest + {first};
    least := first;
    if rest != {} {
      var other := LeastExists(rest);
      least := if other < first then other else first;
    }
  }

  lemma LeastIs(keys: set<nat>)
    requires keys != {}
    ensures exists k :: k in keys && forall j :: j in keys ==> k <= j
  {
    var _ := LeastExists(keys);
  }

  function Least(keys: set<nat>): (k: nat)
    requires keys != {}
    ensures k in keys && forall j :: j in keys ==> k <= j
  {
    LeastIs(keys);
    var k :| k in keys && forall j :: j in keys ==> k <= j;
    k
  }

  /** The assembled blocks by ascending index. */
  function ContentOf(blocks: map<nat, Part>): seq<Content>
    decreases |blocks|
  {
    if blocks == map[] then []
    else
      var k := Least(blocks.Keys);
      assert |blocks - {k}| < |blocks| by {
        assert (blocks - {k}).Keys == blocks.Keys - {k};
        assert |(blocks - {k}).Keys| == |blocks - {k}|;
        assert |blocks.Keys| == |blocks|;
      }
      [Close(blocks[k])] + ContentOf(blocks - {k})
  }

  /** Blocks numbered without gaps from `lo` up to `hi` come out in that order. */
  lemma {:induction false} ContentOfRange(blocks: map<nat, Part>, lo: nat, hi: nat)
    requires lo <= hi && forall k: nat :: k in blocks <==> lo <= k < hi
    ensures |ContentOf(blocks)| == hi - lo
    ensures forall j :: 0 <= j < hi - lo ==> ContentOf(blocks)[j] == Close(blocks[lo + j])
    decreases hi - lo
  {
    if lo == hi {
      assert blocks == map[];
    } else {
      assert lo in blocks;
      var rest := blocks - {lo};
      assert Least(blocks.Keys) == lo;
      ContentOfRange(rest, lo + 1, hi);
      var content := ContentOf(blocks);
      assert content == [Close(blocks[lo])] + ContentOf(rest);
      forall j | 0 <= j < hi - lo ensures content[j] == Close(blocks[lo + j]) {
        if j > 0 {
          assert content[j] == ContentOf(rest)[j - 1];
          assert rest[lo + 1 + (j - 1)] == blocks[lo + j];
        }
      }
    }
  }

  class MessageAssembler {
    var messageId: Option<string>
    var blocks: map<nat, Part>

    constructor ()
      ensures View() == NOTHING
    {
      messageId := None;
      blocks := map[];
    }

    function View(): Assembly
      reads this
    {
      Assembly(messageId, blocks)
    }

    /** Apply one frame; true when it completes the message. */
    method Feed(frame: Frame) returns (complete: bool)
      modifies this
      ensures View() == if frame.Emitted? then Take(old(View()), frame.event) else old(View())
      ensures complete <==> frame == Emitted(MessageStop)
    {
      complete := false;
      if frame.Emitted? {
        match frame.event
        case MessageStart(id) => messageId := Some(id);
        case BlockStart(index, kind) => blocks := blocks[index := OpenPart(kind)];
        case TextDelta(index, text) =>
          if index in blocks && blocks[index].TextPart? {
            blocks := blocks[index := TextPart(blocks[index].text + text)];
          }
        case InputDelta(index, json) =>
          if index in blocks && blocks[index].ToolPart? {
            blocks := blocks[index := blocks[index].(partialJson := blocks[index].partialJson + json)];
          }
        case MessageStop => complete := true;
        case _ =>
      }
    }

    function Content(): seq<Content>
      reads this
    {
      ContentOf(blocks)
    }
  }
}
