/**
 * Entries ordered by storage time, bounded in number and in age: what the
 * reasoning cache and the thread store have in common.
 *
 * The specification is an unbounded log of writes. `Hit` says when a lookup
 * must succeed in terms of the log alone, and `Agrees` is the invariant that
 * makes every lookup of the bounded store do exactly that.
 */
module OrderedStore {
  import opened Common

  datatype Entry<+V> = Entry(key: string, storedAt: real, value: V)

  /** The bounds of a store. */
  datatype Bounds = Bounds(cap: nat, ttl: real)

  function Keys<V>(es: seq<Entry<V>>): set<string> {
    set k | 0 <= k < |es| :: es[k].key
  }

  /** The entries with a key among `keys`, in order. */
  function Keep<V>(es: seq<Entry<V>>, keys: set<string>): seq<Entry<V>> {
    if es == [] then []
    else (if es[0].key in keys then [es[0]] else []) + Keep(es[1..], keys)
  }

  function Without<V>(es: seq<Entry<V>>, key: string): seq<Entry<V>> {
    Keep(es, Keys(es) - {key})
  }

  function Find<V>(es: seq<Entry<V>>, key: string): Option<Entry<V>> {
    if es == [] then None
    else if es[0].key == key then Some(es[0])
    else Find(es[1..], key)
  }

  predicate Expired<V>(e: Entry<V>, now: real, ttl: real) {
    now - e.storedAt > ttl
  }

  function DropExpired<V>(es: seq<Entry<V>>, now: real, ttl: real): seq<Entry<V>> {
    if es != [] && Expired(es[0], now, ttl) then DropExpired(es[1..], now, ttl) else es
  }

  function Trim<V>(es: seq<Entry<V>>, cap: nat): seq<Entry<V>> {
    if |es| > cap then es[|es| - cap..] else es
  }

  function Evict<V>(es: seq<Entry<V>>, now: real, b: Bounds): seq<Entry<V>> {
    Trim(DropExpired(es, now, b.ttl), b.cap)
  }

  /** A write: the key moves to the end, then eviction. */
  function Write<V>(es: seq<Entry<V>>, e: Entry<V>, b: Bounds): seq<Entry<V>> {
    Evict(Without(es, e.key) + [e], e.storedAt, b)
  }

  /** What a lookup returns. */
  function Lookup<V>(es: seq<Entry<V>>, key: string, now: real, b: Bounds): Option<V> {
    var e := Find(es, key);
    if e.Some? && !Expired(e.value, now, b.ttl) then Some(e.value.value) else None
  }

  /** What a lookup leaves behind: an expired entry is dropped. */
  function AfterLookup<V>(es: seq<Entry<V>>, key: string, now: real, b: Bounds): seq<Entry<V>> {
    var e := Find(es, key);
    if e.Some? && Expired(e.value, now, b.ttl) then Without(es, key) else es
  }

  method EvictLoops<V>(es: seq<Entry<V>>, now: real, b: Bounds) returns (left: seq<Entry<V>>)
    ensures left == Evict(es, now, b)
  {
    left := es;
    while left != []
      invariant DropExpired(left, now, b.ttl) == DropExpired(es, now, b.ttl)
      decreases |left|
    {
      if now - left[0].storedAt <= b.ttl {
        break;
      }
      left := left[1..];
    }
    ghost var unexpired := left;
    while |left| > b.cap
      invariant Trim(left, b.cap) == Trim(unexpired, b.cap)
    {
      left := left[1..];
    }
  }

  // ----- the unbounded log

  /** The last write of every key, in the order of those writes. */
  function LastWrites<V>(log: seq<Entry<V>>): seq<Entry<V>> {
    if log == [] then []
    else var e := log[|log| - 1]; Without(LastWrites(log[..|log| - 1]), e.key) + [e]
  }

  /** `log[p]` is the last write of its key. */
  predicate IsLastWrite<V>(log: seq<Entry<V>>, p: nat) {
    p < |log| && log[p].key !in Keys(log[p + 1..])
  }

  /**
   * A lookup at `now` must find `log[p]`: it is the key's last write, its age is within the
   * TTL, and fewer than the cap of distinct other keys were written since.
   */
  predicate Hit<V>(log: seq<Entry<V>>, p: nat, key: string, now: real, b: Bounds) {
    && IsLastWrite(log, p) && log[p].key == key
    && !Expired(log[p], now, b.ttl)
    && |Keys(log[p + 1..])| < b.cap
  }

  predicate UniqueKeys<V>(es: seq<Entry<V>>) {
    forall j, k :: 0 <= j < k < |es| ==> es[j].key != es[k].key
  }

  predicate Ordered<V>(es: seq<Entry<V>>, now: real) {
    && (forall j, k :: 0 <= j < k < |es| ==> es[j].storedAt <= es[k].storedAt)
    && (forall k :: 0 <= k < |es| ==> es[k].storedAt <= now)
  }

  /** An entry no lookup may find any more. */
  predicate Dead<V>(last: seq<Entry<V>>, i: nat, now: real, b: Bounds)
    requires i < |last|
  {
    Expired(last[i], now, b.ttl) || |last| - 1 - i >= b.cap
  }

  /** The entries are the last writes minus some that are dead. */
  predicate Covers<V(==)>(es: seq<Entry<V>>, last: seq<Entry<V>>, now: real, b: Bounds) {
    && UniqueKeys(last) && Ordered(last, now)
    && es == Keep(last, Keys(es))
    && forall i :: 0 <= i < |last| && last[i].key !in Keys(es) ==> Dead(last, i, now, b)
  }

  /** What every operation keeps: the last writes minus dead ones, and no more than the cap. */
  predicate Agrees<V(==)>(es: seq<Entry<V>>, log: seq<Entry<V>>, now: real, b: Bounds) {
    |es| <= b.cap && Covers(es, LastWrites(log), now, b)
  }

  // ----- filtering

  lemma KeysConcat<V>(a: seq<Entry<V>>, b: seq<Entry<V>>)
    ensures Keys(a + b) == Keys(a) + Keys(b)
  {
    var ab := a + b;
    forall k | 0 <= k < |a| ensures a[k].key in Keys(ab) { assert ab[k] == a[k]; }
    forall k | 0 <= k < |b| ensures b[k].key in Keys(ab) { assert ab[|a| + k] == b[k]; }
  }

  lemma {:induction false} KeepConcat<V>(a: seq<Entry<V>>, b: seq<Entry<V>>, s: set<string>)
    ensures Keep(a + b, s) == Keep(a, s) + Keep(b, s)
  {
    hide Keep;
    if a == [] {
      NoneAdded(b);
      KeepEmpty<V>(s);
      NoneAdded(Keep(b, s));
    } else {
      var kept := if a[0].key in s then [a[0]] else [];
      FirstApart(a);
      Associative([a[0]], a[1..], b);
      KeepFirst(a[0], a[1..] + b, s);
      KeepFirst(a[0], a[1..], s);
      KeepConcat(a[1..], b, s);
      Associative(kept, Keep(a[1..], s), Keep(b, s));
    }
  }

  lemma KeepEmpty<V>(s: set<string>)
    ensures Keep<V>([], s) == []
  {
  }

  lemma KeepFirst<V>(e: Entry<V>, rest: seq<Entry<V>>, s: set<string>)
    ensures Keep([e] + rest, s) == (if e.key in s then [e] else []) + Keep(rest, s)
  {
    assert ([e] + rest)[1..] == rest;
  }

  lemma {:induction false} KeepKeys<V>(es: seq<Entry<V>>, s: set<string>)
    ensures Keys(Keep(es, s)) == Keys(es) * s
    ensures |Keep(es, s)| <= |es|
  {
    if es != [] {
      KeepKeys(es[1..], s);
      var head := if es[0].key in s then [es[0]] else [];
      KeysConcat(head, Keep(es[1..], s));
      KeysConcat([es[0]], es[1..]);
      assert es == [es[0]] + es[1..];
    }
  }

  lemma {:induction false} KeepKeep<V>(es: seq<Entry<V>>, s: set<string>, t: set<string>)
    ensures Keep(Keep(es, s), t) == Keep(es, s * t)
  {
    if es != [] {
      KeepKeep(es[1..], s, t);
      KeepConcat(if es[0].key in s then [es[0]] else [], Keep(es[1..], s), t);
    }
  }

  lemma {:induction false} KeepNone<V>(es: seq<Entry<V>>, s: set<string>)
    requires Keys(es) !! s
    ensures Keep(es, s) == []
  {
    if es != [] {
      assert es[0].key in Keys(es);
      KeysConcat([es[0]], es[1..]);
      assert es == [es[0]] + es[1..];
      KeepNone(es[1..], s);
    }
  }

  /** What is kept depends on the keys that occur; keeping all of these keeps everything. */
  lemma {:induction false} KeepSame<V>(es: seq<Entry<V>>, s: set<string>, t: set<string>)
    requires Keys(es) * s == Keys(es) * t
    ensures Keep(es, s) == Keep(es, t)
    ensures Keys(es) <= s ==> Keep(es, s) == es
  {
    if es != [] {
      KeysConcat([es[0]], es[1..]);
      assert es == [es[0]] + es[1..];
      assert es[0].key in Keys(es);
      assert Keys(es[1..]) <= Keys(es);
      assert Keys(es[1..]) * s == Keys(es[1..]) * t by {
        assert Keys(es[1..]) * s == Keys(es[1..]) * (Keys(es) * s);
        assert Keys(es[1..]) * t == Keys(es[1..]) * (Keys(es) * t);
      }
      assert es[0].key in s <==> es[0].key in t by {
        assert es[0].key in Keys(es) * s <==> es[0].key in Keys(es) * t;
      }
      KeepSame(es[1..], s, t);
    }
  }

  lemma {:induction false} KeepMembers<V>(es: seq<Entry<V>>, s: set<string>)
    ensures forall e :: e in Keep(es, s) ==> e in es && e.key in s
  {
    if es != [] {
      KeepMembers(es[1..], s);
    }
  }

  lemma {:induction false} KeepUnique<V>(es: seq<Entry<V>>, s: set<string>)
    requires UniqueKeys(es)
    ensures UniqueKeys(Keep(es, s))
  {
    if es != [] {
      var rest := Keep(es[1..], s);
      KeepUnique(es[1..], s);
      KeepMembers(es[1..], s);
      forall k | 0 <= k < |rest| ensures rest[k].key != es[0].key {
        assert rest[k] in es[1..];
        var j :| 0 <= j < |es| - 1 && es[1..][j] == rest[k];
        assert es[j + 1] == rest[k];
      }
    }
  }

  lemma {:induction false} KeepOrdered<V>(es: seq<Entry<V>>, s: set<string>, now: real)
    requires Ordered(es, now)
    ensures Ordered(Keep(es, s), now)
  {
    hide Ordered;
    if es == [] {
      OrderedNone<V>(now);
    } else {
      OrderedParts(es, now);
      KeepOrdered(es[1..], s, now);
      KeepMembers(es[1..], s);
      OrderedFirst(es[0], Keep(es[1..], s), now);
      NoneAdded(Keep(es[1..], s));
    }
  }

  lemma OrderedNone<V>(now: real)
    ensures Ordered<V>([], now)
  {
  }

  lemma OrderedParts<V>(es: seq<Entry<V>>, now: real)
    requires es != [] && Ordered(es, now)
    ensures Ordered(es[1..], now) && es[0].storedAt <= now && forall e :: e in es[1..] ==> es[0].storedAt <= e.storedAt
  {
  }

  lemma OrderedFirst<V>(e: Entry<V>, rest: seq<Entry<V>>, now: real)
    requires Ordered(rest, now) && e.storedAt <= now && forall later :: later in rest ==> e.storedAt <= later.storedAt
    ensures Ordered([e] + rest, now)
  {
    forall k | 0 <= k < |rest| ensures e.storedAt <= rest[k].storedAt {
      assert rest[k] in rest;
    }
  }

  /** Cutting off the front of a filtered list is filtering by the keys that are left. */
  lemma KeepBack<V>(last: seq<Entry<V>>, es: seq<Entry<V>>, d: nat)
    requires es == Keep(last, Keys(es)) && UniqueKeys(last) && d <= |es|
    ensures es[d..] == Keep(last, Keys(es[d..]))
    ensures UniqueKeys(es)
  {
    var s, t := Keys(es), Keys(es[d..]);
    KeepUnique(last, s);
    assert es == es[..d] + es[d..];
    KeysConcat(es[..d], es[d..]);
    KeepKeep(last, s, t);
    assert s * t == t;
    KeepConcat(es[..d], es[d..], t);
    FrontKeysGone(es, d);
    KeepNone(es[..d], t);
    KeepSame(es[d..], t, t);
  }

  lemma FrontKeysGone<V>(es: seq<Entry<V>>, d: nat)
    requires UniqueKeys(es) && d <= |es|
    ensures Keys(es[..d]) !! Keys(es[d..])
  {
    forall key | key in Keys(es[..d]) ensures key !in Keys(es[d..]) {
      var j :| 0 <= j < d && es[..d][j].key == key;
      forall k | 0 <= k < |es| - d ensures es[d..][k].key != key {
        assert es[j].key != es[d + k].key;
      }
    }
  }
}
