/**
 * Conversations held for clients that send only the delta of a turn: each
 * response is recorded with the request it answered, and a continuation is
 * rebuilt into the full request.
 */
module ThreadStore {
  import opened Common
  import opened Json
  import opened Assembler
  import opened OrderedStore
  import opened StoreLog

  /** A Messages request body: a JSON object. */
  type Request = map<string, Json>

  /** One recorded response: the request behind it, without its thread, and what it said. */
  datatype Held = Held(request: Request, content: seq<Content>)

  datatype Miss = UnknownId | ExpiredId

  const ATTRIBUTION_PREFIX := "x-anthropic-billing-header:"
  const HELD_FIELDS: set<string> := {"system", "messages", "tools", "thread"}

  function ContentJson(c: Content): Json {
    match c
    case Text(text) => JObj(map["type" := JStr("text"), "text" := JStr(text)])
    case ToolUseContent(id, name, input) =>
      JObj(map["type" := JStr("tool_use"), "id" := JStr(id), "name" := JStr(name), "input" := input])
  }

  function AssistantTurn(content: seq<Content>): Json {
    JObj(map["role" := JStr("assistant"),
             "content" := JArr(seq(|content|, k requires 0 <= k < |content| => ContentJson(content[k])))])
  }

  /** The items of a list field; a missing or null field counts as empty. */
  function ListOf(r: Request, key: string): (items: seq<Json>)
    ensures key in r && r[key].JArr? ==> r[key] == JArr(items)
    ensures items != [] ==> key in r && r[key].JArr?
  {
    if key in r && r[key].JArr? then r[key].items else []
  }

  function FieldOf(r: Request, key: string): (field: Option<Json>)
    ensures key in r ==> field == Some(r[key])
    ensures field.Some? ==> key in r
  {
    if key in r then Some(r[key]) else None
  }

  predicate IsAttribution(block: Json) {
    && block.JObj?
    && "type" in block.fields && block.fields["type"] == JStr("text")
    && "text" in block.fields && block.fields["text"].JStr?
    && ATTRIBUTION_PREFIX <= block.fields["text"].chars
  }

  /** A system prompt that begins with an attribution block. */
  predicate IsAttributed(system: Option<Json>) {
    && system.Some? && system.value.JArr? && system.value.items != [] && IsAttribution(system.value.items[0])
  }

  function MergeSystem(held: Option<Json>, delta: Option<Json>): Option<Json> {
    if IsAttributed(held) && IsAttributed(delta)
    then Some(JArr([delta.value.items[0]] + held.value.items[1..]))
    else held
  }

  function HeldOf(request: Request, content: seq<Content>): Held {
    Held(request - {"thread"}, if content == [] then [Text("")] else content)
  }

  function Scalars(delta: Request): Request {
    delta - HELD_FIELDS
  }

  /** The full request a continuation stands for. */
  function Rebuild(held: Held, delta: Request): Request {
    var system := MergeSystem(FieldOf(held.request, "system"), FieldOf(delta, "system"));
    var base := held.request + Scalars(delta);
    var prompted := if system.None? || system.value.JNull? then base - {"system"} else base["system" := system.value];
    var messages := ListOf(held.request, "messages") + [AssistantTurn(held.content)] + ListOf(delta, "messages");
    var spoken := prompted["messages" := JArr(messages)];
    if ListOf(delta, "tools") != [] then spoken["tools" := delta["tools"]] else spoken
  }

  type Log = seq<Entry<Held>>

  class ThreadStore {
    const bounds: Bounds
    var entries: seq<Entry<Held>>
    ghost var log: Log
    ghost var at: real

    ghost predicate Valid()
      reads this
    {
      Agrees(entries, log, at, bounds)
    }

    constructor (b: Bounds, now: real)
      ensures Valid() && bounds == b && log == [] && at == now
    {
      bounds, entries, log, at := b, [], [], now;
    }

    method Record(messageId: string, request: Request, content: seq<Content>, now: real)
      requires Valid() && at <= now
      modifies this
      ensures Valid() && at == now
      ensures log == old(log) + [Entry(messageId, now, HeldOf(request, content))]
      ensures |entries| <= bounds.cap && Ordered(entries, now)
    {
      var held := request - {"thread"};
      var blocks := if content == [] then [Text("")] else content;
      var entry := Entry(messageId, now, Held(held, blocks));
      WriteAgrees(entries, log, at, bounds, entry);
      entries := Without(entries, messageId) + [entry];
      entries := EvictLoops(entries, now, bounds);
      log := log + [entry];
      at := now;
    }

    /**
     * Rebuild the request a continuation stands for. It succeeds exactly when the log says
     * that the response must still be held, and then changes nothing, so that repeating it
     * gives the same request.
     */
    method Resume(previousId: Option<string>, delta: Request, now: real) returns (r: Result<Request, Miss>)
      requires Valid() && at <= now
      modifies this
      ensures Valid() && at == now && log == old(log)
      ensures previousId.None? ==> r == Err(UnknownId)
      ensures previousId.Some? ==>
                if r.Ok? then exists p: nat :: Hit(log, p, previousId.value, now, bounds) && r.value == Rebuild(log[p].value, delta)
                else forall p: nat :: !Hit(log, p, previousId.value, now, bounds)
      ensures r.Ok? ==> entries == old(entries)
      ensures r == Err(ExpiredId) ==>
                && previousId.Some? && previousId.value in Keys(old(entries))
                && Keys(entries) == Keys(old(entries)) - {previousId.value}
      ensures r == Err(UnknownId) ==> entries == old(entries)
      ensures r == Err(UnknownId) && previousId.Some? ==> previousId.value !in Keys(old(entries))
    {
      LookupAgrees(entries, log, at, now, bounds, previousId.GetOr(""));
      at := now;
      if previousId.None? {
        return Err(UnknownId);
      }
      var id := previousId.value;
      FindSome(entries, id);
      ResumeIsHit(entries, log, now, bounds, id);
      var entry := Find(entries, id);
      if entry.None? {
        return Err(UnknownId);
      }
      if now - entry.value.storedAt > bounds.ttl {
        KeepKeys(entries, Keys(entries) - {id});
        entries := Without(entries, id);
        return Err(ExpiredId);
      }
      r := Ok(Rebuild(entry.value.value, delta));
    }
  }

  /** A lookup finds what the log says must be found, and nothing else. */
  lemma ResumeIsHit(es: seq<Entry<Held>>, log: Log, now: real, b: Bounds, id: string)
    requires Agrees(es, log, now, b)
    ensures var found := Lookup(es, id, now, b);
            if found.Some? then exists p: nat :: Hit(log, p, id, now, b) && log[p].value == found.value
            else forall p: nat :: !Hit(log, p, id, now, b)
  {
    var found := Lookup(es, id, now, b);
    if found.Some? {
      LookupIsHit(es, log, now, b, id, found.value);
    } else {
      forall p: nat ensures !Hit(log, p, id, now, b) {
        if Hit(log, p, id, now, b) {
          LookupIsHit(es, log, now, b, id, log[p].value);
        }
      }
    }
  }
}
