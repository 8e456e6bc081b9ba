/**
 * The persistent request log: one row per finished request, windows over it,
 * and its pruning. A query is the fold the SQL statement describes; timestamps
 * are microseconds, UTC.
 */
module RequestLog {
  import opened Common
  import opened Counters
  import opened Sorting

  const HOUR_US := 3_600_000_000
  const DAY_US := 86_400_000_000
  const TPS_MIN_GENERATION_MS := 250.0

  /** Token columns; a column that could not be read is NULL. */
  datatype Tokens = Tokens(input: Option<int>, output: Option<int>, cacheWrite: Option<int>, cacheRead: Option<int>)

  datatype Row = Row(
    ts: int,
    endpoint: Option<string>,
    model: Option<string>,
    provider: Option<string>,
    status: Option<int>,
    error: Option<string>,
    stream: Option<int>,
    rejected: Option<string>,
    duration: Option<real>,
    tokens: Tokens,
    cost: Option<real>,
    ttft: Option<real>)

  // ----- folds over rows

  /** A failed request, or a 4xx/5xx status that is no deliberate rejection. */
  predicate IsError(row: Row) {
    row.error.Some? || (row.status.Some? && row.status.value >= 400 && row.rejected.None?)
  }

  function RowStats(row: Row): Stats {
    Stats(1, if IsError(row) then 1 else 0, if row.cost.Some? then 1 else 0, row.duration.GetOr(0.0),
          Usage(row.tokens.input.GetOr(0), row.tokens.output.GetOr(0), row.tokens.cacheWrite.GetOr(0), row.tokens.cacheRead.GetOr(0)),
          row.cost.GetOr(0.0))
  }

  function TotalsOf(rows: seq<Row>): Stats {
    if rows == [] then NO_STATS else TotalsOf(rows[..|rows| - 1]).Plus(RowStats(rows[|rows| - 1]))
  }

  function Only(rows: seq<Row>, keep: Row -> bool): seq<Row> {
    if rows == [] then []
    else Only(rows[..|rows| - 1], keep) + (if keep(rows[|rows| - 1]) then [rows[|rows| - 1]] else [])
  }

  /** A half-open range of timestamps. */
  datatype Window = Window(start: int, end: Option<int>)

  predicate Covers(w: Window, ts: int) {
    w.start <= ts && (w.end.Some? ==> ts < w.end.value)
  }

  function InWindow(w: Window): Row -> bool {
    (row: Row) => Covers(w, row.ts)
  }

  function Within(rows: seq<Row>, w: Window): seq<Row> {
    Only(rows, InWindow(w))
  }

  function RangeTotals(rows: seq<Row>, w: Window): Stats {
    TotalsOf(Within(rows, w))
  }

  // ----- groups

  /** The keys of the rows, by first appearance. */
  function Keys<K(==)>(rows: seq<Row>, key: Row -> K): seq<K> {
    if rows == [] then []
    else
      var front := Keys(rows[..|rows| - 1], key);
      var last := key(rows[|rows| - 1]);
      if last in front then front else front + [last]
  }

  function WithKey<K(==)>(key: Row -> K, k: K): Row -> bool {
    (row: Row) => key(row) == k
  }

  function GroupTotals<K(==)>(rows: seq<Row>, key: Row -> K, ks: seq<K>): seq<Stats> {
    seq(|ks|, i requires 0 <= i < |ks| => TotalsOf(Only(rows, WithKey(key, ks[i]))))
  }

  datatype Bucket = Hour | Day

  /** The hour or the day a timestamp falls into. */
  function BucketOf(bucket: Bucket): Row -> int {
    (row: Row) => row.ts / (if bucket.Hour? then HOUR_US else DAY_US)
  }

  function Ascending(): (int, int) -> bool {
    (a: int, b: int) => a <= b
  }

  function Buckets(rows: seq<Row>, bucket: Bucket): seq<int> {
    SortBy(Ascending(), Keys(rows, BucketOf(bucket)))
  }

  datatype Point = Point(bucket: int, stats: Stats)

  /** One point per bucket that has rows, oldest first. */
  function RangeSeries(rows: seq<Row>, w: Window, bucket: Bucket): seq<Point> {
    var covered := Within(rows, w);
    var buckets := Buckets(covered, bucket);
    var totals := GroupTotals(covered, BucketOf(bucket), buckets);
    seq(|buckets|, i requires 0 <= i < |buckets| => Point(buckets[i], totals[i]))
  }

  // ----- the breakdown

  datatype Route = Route(provider: Option<string>, model: Option<string>)

  function RouteOf(): Row -> Route {
    (row: Row) => Route(row.provider, row.model)
  }

  /** Generation throughput of a group, over the rows that carry one. */
  datatype Throughput = Throughput(requests: nat, outputTokens: int, generation: real, ttft: real)

  predicate Qualifies(row: Row) {
    && row.endpoint == Some("messages") && row.stream == Some(1) && row.ttft.Some?
    && row.tokens.output.Some? && row.tokens.output.value > 0 && row.model.Some?
    && row.duration.Some? && row.duration.value - row.ttft.value >= TPS_MIN_GENERATION_MS
  }

  function ThroughputOf(rows: seq<Row>): Throughput {
    if rows == [] then Throughput(0, 0, 0.0, 0.0)
    else
      var front, row := ThroughputOf(rows[..|rows| - 1]), rows[|rows| - 1];
      Throughput(front.requests + 1, front.outputTokens + row.tokens.output.GetOr(0),
                 front.generation + (row.duration.GetOr(0.0) - row.ttft.GetOr(0.0)), front.ttft + row.ttft.GetOr(0.0))
  }

  datatype Entry = Entry(route: Route, stats: Stats, throughput: Option<Throughput>)

  /** One breakdown row: the group's counters, and its throughput when a row of it qualifies. */
  function EntryOf(covered: seq<Row>, route: Route): Entry {
    var rows := Only(covered, WithKey(RouteOf(), route));
    var qualifying := Only(rows, (row: Row) => Qualifies(row));
    Entry(route, TotalsOf(rows), if qualifying == [] then None else Some(ThroughputOf(qualifying)))
  }

  function EntriesOf(covered: seq<Row>, routes: seq<Route>): seq<Entry> {
    seq(|routes|, i requires 0 <= i < |routes| => EntryOf(covered, routes[i]))
  }

  /** A missing name is behind every name. */
  predicate NameLeq(a: Option<string>, b: Option<string>) {
    b.None? || (a.Some? && StringLeq(a.value, b.value))
  }

  /** By provider, then the busiest first, then by model. */
  predicate EntryLeq(a: Entry, b: Entry) {
    if a.route.provider != b.route.provider then NameLeq(a.route.provider, b.route.provider)
    else if a.stats.requests != b.stats.requests then a.stats.requests > b.stats.requests
    else NameLeq(a.route.model, b.route.model)
  }

  function ByShown(): (Entry, Entry) -> bool {
    (a: Entry, b: Entry) => EntryLeq(a, b)
  }

  function BreakdownOf(rows: seq<Row>, w: Window): seq<Entry> {
    var covered := Within(rows, w);
    SortBy(ByShown(), EntriesOf(covered, Keys(covered, RouteOf())))
  }

  /** Counters per name; rows without the name are left out. */
  function GroupedTotals(rows: seq<Row>, w: Window, name: Row -> Option<string>): map<string, Stats> {
    var covered := Within(rows, w);
    map n | n in Keys(covered, name) && n.Some? :: n.value := TotalsOf(Only(covered, WithKey(name, n)))
  }

  // ----- the store

  function Since(rows: seq<Row>, cutoff: int): seq<Row> {
    Within(rows, Window(cutoff, None))
  }

  class RequestStore {
    const connected: bool
    var rows: seq<Row>
    ghost var log: seq<Row>      // everything ever recorded
    ghost var prunedTo: int      // the latest cutoff so far

    /** From the latest cutoff on, nothing recorded is missing. */
    ghost predicate Valid()
      reads this
    {
      connected ==> Since(rows, prunedTo) == Since(log, prunedTo)
    }

    constructor (connected: bool)
      ensures Valid() && this.connected == connected && rows == [] && log == []
    {
      this.connected := connected;
      rows := [];
      log := [];
      prunedTo := 0;
    }

    method Record(row: Row)
      requires Valid()
      modifies this
      ensures Valid() && prunedTo == old(prunedTo)
      ensures rows == (if connected then old(rows) + [row] else old(rows)) && log == old(log) + [row]
    {
      log := log + [row];
      if connected {
        rows := rows + [row];
        OnlyPush(old(rows), row, InWindow(Window(prunedTo, None)));
        OnlyPush(old(log), row, InWindow(Window(prunedTo, None)));
      }
    }

    /** Delete the rows from before the retention; the count of them is the answer. */
    method Prune(now: int, retentionDays: int) returns (deleted: nat)
      requires Valid()
      modifies this
      ensures Valid() && log == old(log)
      ensures prunedTo >= old(prunedTo) && prunedTo >= now - retentionDays * 86_400_000_000
      ensures prunedTo == old(prunedTo) || prunedTo == now - retentionDays * 86_400_000_000
      ensures rows == if connected then Since(old(rows), now - retentionDays * 86_400_000_000) else old(rows)
      ensures deleted + |rows| == |old(rows)|
    {
      var cutoff := now - retentionDays * DAY_US;
      deleted := 0;
      if connected {
        OnlyShorter(rows, InWindow(Window(cutoff, None)));
        deleted := |rows| - |Since(rows, cutoff)|;
        rows := Since(rows, cutoff);
        PruneKeeps(old(rows), log, prunedTo, cutoff);
      }
      prunedTo := Later(prunedTo, cutoff);
    }

    /** The table of the dashboard: group rows joined with their throughput, then put in order. */
    method Breakdown(w: Window) returns (entries: seq<Entry>)
      ensures entries == if connected then BreakdownOf(rows, w) else []
    {
      entries := [];
      if connected {
        var covered := Within(rows, w);
        var routes := Keys(covered, RouteOf());
        var throughput := ThroughputTable(covered, routes);
        var i := 0;
        while i < |routes|
          invariant 0 <= i <= |routes|
          invariant entries == EntriesOf(covered, routes[..i])
        {
          var group := Only(covered, WithKey(RouteOf(), routes[i]));
          var entry := Entry(routes[i], TotalsOf(group), None);
          if routes[i] in throughput {
            entry := entry.(throughput := Some(throughput[routes[i]]));
          }
          EntriesPush(covered, routes, i);
          entries := entries + [entry];
          i := i + 1;
        }
        assert routes[..i] == routes;
        entries := SortBy(ByShown(), entries);
      }
    }
  }

  lemma EntriesPush(covered: seq<Row>, routes: seq<Route>, i: nat)
    requires i < |routes|
    ensures EntriesOf(covered, routes[..i + 1]) == EntriesOf(covered, routes[..i]) + [EntryOf(covered, routes[i])]
  {
  }

  function Later(a: int, b: int): int {
    if a > b then a else b
  }

  /** What the throughput query returns: the groups with a qualifying row. */
  function ThroughputTable(covered: seq<Row>, routes: seq<Route>): (table: map<Route, Throughput>)
    ensures forall route :: route in table <==> route in routes && EntryOf(covered, route).throughput.Some?
    ensures forall route :: route in table ==> Some(table[route]) == EntryOf(covered, route).throughput
  {
    map route | route in routes && EntryOf(covered, route).throughput.Some? :: EntryOf(covered, route).throughput.value
  }

  lemma OnlyPush(rows: seq<Row>, row: Row, keep: Row -> bool)
    ensures Only(rows + [row], keep) == Only(rows, keep) + (if keep(row) then [row] else [])
  {
    assert (rows + [row])[..|rows|] == rows;
  }

  lemma {:induction false} OnlyShorter(rows: seq<Row>, keep: Row -> bool)
    ensures |Only(rows, keep)| <= |rows|
  {
    if rows != [] {
      OnlyShorter(rows[..|rows| - 1], keep);
    }
  }

  /** Selecting twice is selecting once by both. */
  lemma {:induction false} OnlyTwice(rows: seq<Row>, first: Row -> bool, second: Row -> bool)
    requires forall row :: second(row) ==> first(row)
    ensures Only(Only(rows, first), second) == Only(rows, second)
  {
    if rows != [] {
      var front, last := rows[..|rows| - 1], rows[|rows| - 1];
      OnlyTwice(front, first, second);
      assert second(last) ==> first(last);
      OnlyPush(Only(front, first), last, second);
      assert Only(front, first) + [] == Only(front, first);
    }
  }

  /** A window that starts no earlier than a cutoff reads the same before and after it. */
  lemma SinceKeeps(rows: seq<Row>, cutoff: int, w: Window)
    requires cutoff <= w.start
    ensures Within(Since(rows, cutoff), w) == Within(rows, w)
  {
    OnlyTwice(rows, InWindow(Window(cutoff, None)), InWindow(w));
  }

  lemma PruneKeeps(rows: seq<Row>, log: seq<Row>, prunedTo: int, cutoff: int)
    requires Since(rows, prunedTo) == Since(log, prunedTo)
    ensures Since(Since(rows, cutoff), Later(prunedTo, cutoff)) == Since(log, Later(prunedTo, cutoff))
  {
    var w := Window(Later(prunedTo, cutoff), None);
    SinceKeeps(rows, cutoff, w);
    SinceKeeps(rows, prunedTo, w);
    SinceKeeps(log, prunedTo, w);
  }
}
