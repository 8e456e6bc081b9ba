/**
 * The cache of reasoning items by tool call. Its ghost log of writes is what
 * every lookup answers to: the cache may forget, but only what the bounds
 * allow it to.
 */
module ReasoningCache {
  import opened Common
  import opened Json
  import opened OrderedStore
  import opened StoreLog

  type Fields = map<string, Json>

  const REASONING_INPUT_FIELDS: set<string> := {"type", "id", "summary", "encrypted_content", "content"}

  /** The fields of a reasoning item the upstream accepts back. */
  function Sanitize(item: Fields): (kept: Fields)
    ensures kept.Keys == item.Keys * {"type", "id", "summary", "encrypted_content", "content"}
    ensures forall k :: k in kept ==> kept[k] == item[k]
  {
    map k | k in item && k in REASONING_INPUT_FIELDS :: item[k]
  }

  function SanitizeAll(items: seq<Fields>): seq<Fields> {
    seq(|items|, k requires 0 <= k < |items| => Sanitize(items[k]))
  }

  /** What a lookup gives, in terms of the log: the hit's value, or nothing. */
  ghost function Recall(log: seq<Entry<seq<Fields>>>, key: string, now: real, b: Bounds): seq<Fields> {
    if exists p: nat :: Hit(log, p, key, now, b) then
      var p: nat :| Hit(log, p, key, now, b);
      log[p].value
    else []
  }

  lemma RecallIsHit(log: seq<Entry<seq<Fields>>>, p: nat, key: string, now: real, b: Bounds)
    requires Hit(log, p, key, now, b)
    ensures Recall(log, key, now, b) == log[p].value
  {
    var q: nat :| Hit(log, q, key, now, b) && Recall(log, key, now, b) == log[q].value;
    HitIsUnique(log, p, q, key, now, b);
  }

  lemma LookupIsRecall(es: seq<Entry<seq<Fields>>>, log: seq<Entry<seq<Fields>>>, key: string, now: real, b: Bounds)
    requires Agrees(es, log, now, b)
    ensures Lookup(es, key, now, b).GetOr([]) == Recall(log, key, now, b)
  {
    var found := Lookup(es, key, now, b);
    if found.Some? {
      LookupIsHit(es, log, now, b, key, found.value);
      var p: nat :| Hit(log, p, key, now, b) && log[p].value == found.value;
      RecallIsHit(log, p, key, now, b);
    } else if exists p: nat :: Hit(log, p, key, now, b) {
      var p: nat :| Hit(log, p, key, now, b);
      LookupIsHit(es, log, now, b, key, log[p].value);
    }
  }

  class ReasoningCache {
    const bounds: Bounds
    var entries: seq<Entry<seq<Fields>>>
    ghost var log: seq<Entry<seq<Fields>>>
    ghost var at: real

    ghost predicate Valid()
      reads this
    {
      Agrees(entries, log, at, bounds)
    }

    constructor (b: Bounds, now: real)
      ensures Valid() && bounds == b && log == [] && at == now
    {
      bounds, entries, log, at := b, [], [], now;
    }

    method Store(callId: string, items: seq<Fields>, now: real)
      requires Valid() && at <= now
      modifies this
      ensures Valid() && at == now
      ensures log == if items == [] then old(log) else old(log) + [Entry(callId, now, SanitizeAll(items))]
      ensures |entries| <= bounds.cap && (items != [] ==> Ordered(entries, now)) && (items == [] ==> entries == old(entries))
    {
      LookupAgrees(entries, log, at, now, bounds, callId);
      if items == [] {
        at := now;
        return;
      }
      var sanitized := [];
      for i := 0 to |items|
        invariant sanitized == SanitizeAll(items)[..i]
      {
        sanitized := sanitized + [Sanitize(items[i])];
      }
      assert sanitized == SanitizeAll(items);
      WriteAgrees(entries, log, now, bounds, Entry(callId, now, sanitized));
      entries := Without(entries, callId) + [Entry(callId, now, sanitized)];
      entries := EvictLoops(entries, now, bounds);
      log := log + [Entry(callId, now, sanitized)];
      at := now;
    }

    method Get(callId: string, now: real) returns (items: seq<Fields>)
      requires Valid() && at <= now
      modifies this
      ensures Valid() && at == now && log == old(log)
      ensures items == Recall(log, callId, now, bounds)
      ensures var found := Find(old(entries), callId);
              if found.Some? && now > found.value.storedAt + bounds.ttl then Keys(entries) == Keys(old(entries)) - {callId}
              else entries == old(entries)
    {
      LookupAgrees(entries, log, at, now, bounds, callId);
      LookupIsRecall(entries, log, callId, now, bounds);
      at := now;
      var entry := Find(entries, callId);
      if entry.None? {
        return [];
      }
      if now - entry.value.storedAt > bounds.ttl {
        KeepKeys(entries, Keys(entries) - {callId});
        entries := Without(entries, callId);
        return [];
      }
      items := entry.value.value;
    }
  }
}
