/**
 * A bounded store agrees with its unbounded log: after any run of writes and
 * lookups, a lookup finds a key exactly when its last write is within the TTL
 * and fewer than the cap of distinct other keys were written since.
 */
module StoreLog {
  import opened Common
  import opened OrderedStore

  // ----- positions

  lemma SamePlace<V>(es: seq<Entry<V>>, i: nat, j: nat)
    requires UniqueKeys(es) && i < |es| && j < |es| && es[i].key == es[j].key
    ensures i == j
  {
  }

  /** Where an entry of a list ends up among the kept ones, and what comes after it. */
  lemma KeepSplit<V>(last: seq<Entry<V>>, s: set<string>, i: nat)
    requires i < |last| && last[i].key in s
    ensures Keep(last, s) == Keep(last[..i], s) + [last[i]] + Keep(last[i + 1..], s)
  {
    assert last == last[..i] + ([last[i]] + last[i + 1..]);
    KeepConcat(last[..i], [last[i]] + last[i + 1..], s);
    KeepConcat([last[i]], last[i + 1..], s);
    assert Keep([last[i]], s) == [last[i]];
  }

  /** A kept entry comes from one position, and at most as many entries follow it as before. */
  lemma KeepOrigin<V>(last: seq<Entry<V>>, s: set<string>, j: nat) returns (i: nat)
    requires UniqueKeys(last) && j < |Keep(last, s)|
    ensures i < |last| && last[i] == Keep(last, s)[j] && last[i].key in s
    ensures |Keep(last, s)| - 1 - j == |Keep(last[i + 1..], s)| <= |last| - 1 - i
  {
    var es := Keep(last, s);
    KeepMembers(last, s);
    assert es[j] in es;
    i :| 0 <= i < |last| && last[i] == es[j];
    KeepSplit(last, s, i);
    KeepUnique(last, s);
    var m := |Keep(last[..i], s)|;
    assert es[m] == last[i];
    SamePlace(es, m, j);
    KeepKeys(last[i + 1..], s);
  }

  lemma {:induction false} UniqueCount<V>(es: seq<Entry<V>>)
    requires UniqueKeys(es)
    ensures |Keys(es)| == |es|
  {
    if es != [] {
      KeysConcat([es[0]], es[1..]);
      assert es == [es[0]] + es[1..];
      UniqueCount(es[1..]);
      assert Keys([es[0]]) == {es[0].key};
      forall k | 0 <= k < |es| - 1 ensures es[1..][k].key != es[0].key {
        assert es[1..][k] == es[k + 1];
      }
      assert es[0].key !in Keys(es[1..]);
    } else {
      assert Keys(es) == {};
    }
  }

  /** Dropping one key from a list of unique keys drops at most one entry. */
  lemma {:induction false} KeepAllButOne<V>(es: seq<Entry<V>>, s: set<string>, key: string)
    requires UniqueKeys(es) && Keys(es) - {key} <= s
    ensures |Keep(es, s)| >= |es| - 1
  {
    KeepKeys(es, s);
    KeepUnique(es, s);
    UniqueCount(es);
    UniqueCount(Keep(es, s));
    assert Keys(es) * s >= Keys(es) - {key};
    if key in Keys(es) {
      assert |Keys(es) - {key}| == |Keys(es)| - 1;
    }
    SubsetCount(Keys(es) - {key}, Keys(es) * s);
  }

  lemma SubsetCount(a: set<string>, b: set<string>)
    requires a <= b
    ensures |a| <= |b|
  {
    assert b == a + (b - a);
  }

  // ----- the writes

  lemma LastWritesAppend<V>(log: seq<Entry<V>>, e: Entry<V>)
    ensures LastWrites(log + [e]) == Without(LastWrites(log), e.key) + [e]
  {
    assert (log + [e])[..|log|] == log;
  }

  /** Moving a key to the end keeps every dead entry dead. */
  lemma MoveCovers<V>(es: seq<Entry<V>>, last: seq<Entry<V>>, now: real, b: Bounds, e: Entry<V>)
    requires Covers(es, last, now, b) && now <= e.storedAt
    ensures Covers(Without(es, e.key) + [e], Without(last, e.key) + [e], e.storedAt, b)
  {
    var es1, last1 := Without(es, e.key) + [e], Without(last, e.key) + [e];
    var others := Keys(last) - {e.key};
    MoveKeeps(es, last, e);
    KeepUnique(last, others);
    KeepOrdered(last, others, now);
    KeepKeys(last, others);
    forall k | 0 <= k < |last1| - 1 ensures last1[k].key != e.key {
      assert last1[k].key in Keys(Keep(last, others));
    }
    forall j | 0 <= j < |last1| && last1[j].key !in Keys(es1) ensures Dead(last1, j, e.storedAt, b) {
      assert es1[|es1| - 1] == e;
      assert j < |last1| - 1;
      var i := KeepOrigin(last, others, j);
      assert last[i].key !in Keys(es) by {
        KeysConcat(Without(es, e.key), [e]);
        KeepKeys(es, Keys(es) - {e.key});
      }
      assert Dead(last, i, now, b);
      BackUnique(last, i + 1);
      KeysBack(last, i + 1);
      KeepAllButOne(last[i + 1..], others, e.key);
    }
  }

  lemma BackUnique<V>(es: seq<Entry<V>>, d: nat)
    requires UniqueKeys(es) && d <= |es|
    ensures UniqueKeys(es[d..])
  {
  }

  lemma KeysBack<V>(es: seq<Entry<V>>, d: nat)
    requires d <= |es|
    ensures Keys(es[d..]) <= Keys(es)
  {
    KeysConcat(es[..d], es[d..]);
    assert es == es[..d] + es[d..];
  }

  lemma OneKey<V>(e: Entry<V>)
    ensures Keys([e]) == {e.key}
  {
    assert [e][0] == e;
  }

  lemma MoveKeeps<V>(es: seq<Entry<V>>, last: seq<Entry<V>>, e: Entry<V>)
    requires es == Keep(last, Keys(es))
    ensures var es1, last1 := Without(es, e.key) + [e], Without(last, e.key) + [e];
            es1 == Keep(last1, Keys(es1))
  {
    var s := Keys(es);
    var others := Keys(last) - {e.key};
    var es1, last1 := Without(es, e.key) + [e], Without(last, e.key) + [e];
    var t := Keys(es1);
    KeepKeep(last, s, s - {e.key});
    assert s * (s - {e.key}) == s - {e.key};
    KeysConcat(Without(es, e.key), [e]);
    KeepKeys(es, s - {e.key});
    OneKey(e);
    assert t == (s - {e.key}) + {e.key};
    KeepConcat(Keep(last, others), [e], t);
    KeepKeep(last, others, t);
    assert Keys(last) * (others * t) == Keys(last) * (s - {e.key});
    KeepSame(last, others * t, s - {e.key});
    assert Keep([e], t) == [e];
  }

  /** Dropping entries from the front is sound when each is expired or followed by a full store. */
  lemma DropCovers<V>(es: seq<Entry<V>>, last: seq<Entry<V>>, now: real, b: Bounds, d: nat)
    requires Covers(es, last, now, b) && d <= |es|
    requires forall j :: 0 <= j < d ==> Expired(es[j], now, b.ttl) || |es| - 1 - j >= b.cap
    ensures Covers(es[d..], last, now, b)
  {
    KeepBack(last, es, d);
    assert es == es[..d] + es[d..];
    KeysConcat(es[..d], es[d..]);
    forall i | 0 <= i < |last| && last[i].key !in Keys(es[d..]) ensures Dead(last, i, now, b) {
      if last[i].key in Keys(es[..d]) {
        var j :| 0 <= j < d && es[..d][j].key == last[i].key;
        var o := KeepOrigin(last, Keys(es), j);
        SamePlace(last, o, i);
      }
    }
  }

  lemma {:induction false} DropExpiredFront<V>(es: seq<Entry<V>>, now: real, ttl: real) returns (d: nat)
    ensures d <= |es| && DropExpired(es, now, ttl) == es[d..]
    ensures forall j :: 0 <= j < d ==> Expired(es[j], now, ttl)
  {
    if es != [] && Expired(es[0], now, ttl) {
      var m := DropExpiredFront(es[1..], now, ttl);
      d := m + 1;
      forall j | 0 <= j < d ensures Expired(es[j], now, ttl) {
        if j > 0 { assert es[j] == es[1..][j - 1]; }
      }
    } else {
      d := 0;
    }
  }

  lemma EvictCovers<V>(es: seq<Entry<V>>, last: seq<Entry<V>>, now: real, b: Bounds)
    requires Covers(es, last, now, b)
    ensures Covers(Evict(es, now, b), last, now, b) && |Evict(es, now, b)| <= b.cap
  {
    var d := DropExpiredFront(es, now, b.ttl);
    DropCovers(es, last, now, b, d);
    var unexpired := es[d..];
    if |unexpired| > b.cap {
      DropCovers(unexpired, last, now, b, |unexpired| - b.cap);
    }
  }

  /** A write keeps the agreement; what it leaves is in order of storage time and within the cap. */
  lemma WriteAgrees<V>(es: seq<Entry<V>>, log: seq<Entry<V>>, now: real, b: Bounds, e: Entry<V>)
    requires Agrees(es, log, now, b) && now <= e.storedAt
    ensures Agrees(Write(es, e, b), log + [e], e.storedAt, b)
    ensures Ordered(Write(es, e, b), e.storedAt) && |Write(es, e, b)| <= b.cap
  {
    var last := LastWrites(log);
    LastWritesAppend(log, e);
    MoveCovers(es, last, now, b, e);
    var last1 := LastWrites(log + [e]);
    EvictCovers(Without(es, e.key) + [e], last1, e.storedAt, b);
    KeepOrdered(last1, Keys(Write(es, e, b)), e.storedAt);
  }

  // ----- the lookups

  lemma {:induction false} FindSome<V>(es: seq<Entry<V>>, key: string)
    ensures Find(es, key).Some? <==> key in Keys(es)
    ensures Find(es, key).Some? ==> Find(es, key).value in es && Find(es, key).value.key == key
  {
    if es != [] {
      FindSome(es[1..], key);
      KeysConcat([es[0]], es[1..]);
      assert es == [es[0]] + es[1..];
    }
  }

  /** Time alone, and a lookup that drops an expired entry, keep the agreement. */
  lemma LookupAgrees<V>(es: seq<Entry<V>>, log: seq<Entry<V>>, before: real, now: real, b: Bounds, key: string)
    requires Agrees(es, log, before, b) && before <= now
    ensures Agrees(es, log, now, b) && Agrees(AfterLookup(es, key, now, b), log, now, b)
  {
    var last := LastWrites(log);
    forall i | 0 <= i < |last| && last[i].key !in Keys(es) ensures Dead(last, i, now, b) {
      assert Dead(last, i, before, b);
    }
    var found := Find(es, key);
    if found.Some? && Expired(found.value, now, b.ttl) {
      var s := Keys(es);
      FindSome(es, key);
      KeepKeep(last, s, s - {key});
      assert s * (s - {key}) == s - {key};
      KeepKeys(es, s - {key});
      KeepMembers(last, s);
      assert Keys(Without(es, key)) == s - {key};
      forall i | 0 <= i < |last| && last[i].key !in s - {key} ensures Dead(last, i, now, b) {
        if last[i].key == key {
          var k :| 0 <= k < |last| && last[k] == found.value;
          SamePlace(last, k, i);
        }
      }
    }
  }

  lemma MovedBackKeys<V>(older: seq<Entry<V>>, d: nat, e: Entry<V>)
    requires d <= |older|
    ensures Keys(Keep(older[d..], Keys(older) - {e.key}) + [e]) == Keys(older[d..]) + {e.key}
  {
    var others := Keys(older) - {e.key};
    KeysConcat(Keep(older[d..], others), [e]);
    OneKey(e);
    KeepKeys(older[d..], others);
    KeysBack(older, d);
  }

  /** Every last write has its place among the last writes, with the same distinct keys behind it. */
  lemma {:induction false} LastWritePlace<V>(log: seq<Entry<V>>, p: nat) returns (i: nat)
    requires IsLastWrite(log, p)
    ensures i < |LastWrites(log)| && LastWrites(log)[i] == log[p]
    ensures Keys(LastWrites(log)[i + 1..]) == Keys(log[p + 1..])
    decreases |log|
  {
    hide Keep;
    var n := |log| - 1;
    var e := log[n];
    var last := LastWrites(log);
    if p == n {
      i := |last| - 1;
      assert last[i + 1..] == [] && log[p + 1..] == [];
    } else {
      var front := log[..n];
      assert log[p + 1..] == front[p + 1..] + [e];
      KeysConcat(front[p + 1..], [e]);
      OneKey(e);
      var j := LastWritePlace(front, p);
      var older := LastWrites(front);
      var others := Keys(older) - {e.key};
      assert older[j].key in Keys(older);
      assert e.key != log[p].key;
      KeepSplit(older, others, j);
      i := |Keep(older[..j], others)|;
      assert last == Keep(older[..j], others) + [older[j]] + Keep(older[j + 1..], others) + [e];
      assert last[i + 1..] == Keep(older[j + 1..], others) + [e];
      MovedBackKeys(older, j + 1, e);
    }
  }

  lemma {:induction false} LastWriteOrigin<V>(log: seq<Entry<V>>, i: nat) returns (p: nat)
    requires i < |LastWrites(log)|
    ensures IsLastWrite(log, p) && log[p] == LastWrites(log)[i]
    decreases |log|
  {
    var n := |log| - 1;
    var last := LastWrites(log);
    if i == |last| - 1 {
      p := n;
      assert log[p + 1..] == [];
    } else {
      var front := log[..n];
      var older := LastWrites(front);
      var others := Keys(older) - {log[n].key};
      KeepMembers(older, others);
      var kept := Keep(older, others);
      assert last[i] == kept[i] && kept[i] in kept;
      var j :| 0 <= j < |older| && older[j] == last[i];
      p := LastWriteOrigin(front, j);
      assert log[p + 1..] == front[p + 1..] + [log[n]];
      KeysConcat(front[p + 1..], [log[n]]);
      assert Keys([log[n]]) == {log[n].key};
    }
  }

  /** An entry kept although the cap's worth of others came later would make the store too full. */
  lemma KeptIsNotCrowdedOut<V>(es: seq<Entry<V>>, last: seq<Entry<V>>, now: real, b: Bounds, i: nat)
    requires Covers(es, last, now, b) && |es| <= b.cap
    requires i < |last| && last[i].key in Keys(es) && !Expired(last[i], now, b.ttl)
    ensures |last| - 1 - i < b.cap
  {
    hide Keep;
    if |last| - 1 - i >= b.cap {
      var s := Keys(es);
      var d := |last| - b.cap;
      KeepSplit(last, s, i);
      assert last[i + 1..] == last[i + 1..d] + last[d..];
      KeepConcat(last[i + 1..d], last[d..], s);
      forall key | key in Keys(last[d..]) ensures key in s {
        var k :| 0 <= k < |last[d..]| && last[d..][k].key == key;
        assert last[d + k].key == key && last[i].storedAt <= last[d + k].storedAt;
      }
      KeepSame(last[d..], s, s);
    }
  }

  /**
   * The bounded store and the log agree on every lookup: it returns a value exactly when
   * some last write must be found, and then that write's value.
   */
  lemma LookupIsHit<V>(es: seq<Entry<V>>, log: seq<Entry<V>>, now: real, b: Bounds, key: string, v: V)
    requires Agrees(es, log, now, b)
    ensures Lookup(es, key, now, b) == Some(v) <==> exists p: nat :: Hit(log, p, key, now, b) && log[p].value == v
  {
    var last := LastWrites(log);
    FindSome(es, key);
    KeepMembers(last, Keys(es));
    if Lookup(es, key, now, b) == Some(v) {
      var e := Find(es, key).value;
      assert e in es;
      var i :| 0 <= i < |last| && last[i] == e;
      KeptIsNotCrowdedOut(es, last, now, b, i);
      var p := LastWriteOrigin(log, i);
      PlaceCounts(log, p, i);
      assert Hit(log, p, key, now, b);
    }
    if p: nat :| Hit(log, p, key, now, b) && log[p].value == v {
      var i := LastWritePlace(log, p);
      PlaceCounts(log, p, i);
      assert last[i].key in Keys(es);
      var e := Find(es, key).value;
      assert e in es;
      var k :| 0 <= k < |last| && last[k] == e;
      SamePlace(last, k, i);
    }
  }

  /** The entries after a last write are as many as the distinct keys written since. */
  lemma PlaceCounts<V>(log: seq<Entry<V>>, p: nat, i: nat)
    requires UniqueKeys(LastWrites(log)) && IsLastWrite(log, p)
    requires i < |LastWrites(log)| && LastWrites(log)[i] == log[p]
    ensures |LastWrites(log)| - 1 - i == |Keys(log[p + 1..])|
  {
    var last := LastWrites(log);
    var j := LastWritePlace(log, p);
    SamePlace(last, j, i);
    BackUnique(last, i + 1);
    UniqueCount(last[i + 1..]);
  }

  /** At most one write of the log can be the hit of a lookup. */
  lemma HitIsUnique<V>(log: seq<Entry<V>>, p: nat, q: nat, key: string, now: real, b: Bounds)
    requires Hit(log, p, key, now, b) && Hit(log, q, key, now, b)
    ensures p == q
  {
    if p < q {
      LaterKeyDiffers(log, p, q);
    } else if q < p {
      LaterKeyDiffers(log, q, p);
    }
  }

  lemma LaterKeyDiffers<V>(log: seq<Entry<V>>, p: nat, q: nat)
    requires IsLastWrite(log, p) && p < q < |log|
    ensures log[q].key != log[p].key
  {
    assert log[p + 1..][q - p - 1] == log[q];
  }
}
