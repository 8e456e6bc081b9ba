/**
 * Which window a dashboard request means, and what every accepted window can
 * rely on: it adds up, its series and its breakdown add up to it, and when
 * pruning shortens it.
 */
module StoreWindows {
  import opened Common
  import opened Counters
  import opened IsoTimestamps
  import opened Sorting
  import opened RequestLog

  // ----- resolving a request

  /** A custom bound as it was read: unreadable, a day, or an instant with the offset it was written with. */
  datatype Bound = Malformed | OnDay(day: int) | Instant(moment: Moment)

  datatype WindowError = BadBound | EmptyRange | BeforeRetention | EndWithoutStart | CustomWithoutStart | UnknownWindow

  datatype Resolved = Resolved(name: string, start: Moment, end: Option<Moment>, bucket: Bucket, clamped: bool)

  function Utc(us: int): Moment {
    Moment(us, 0)
  }

  function ParseBound(bound: Bound, endOfDay: bool): Option<Moment> {
    match bound
    case Malformed => None
    case OnDay(day) => Some(Utc((if endOfDay then day + 1 else day) * DAY_US))
    case Instant(moment) => Some(moment)
  }

  /** The later of two instants, the first on a tie. */
  function LaterMoment(a: Moment, b: Moment): Moment {
    if b.us > a.us then b else a
  }

  function BucketFor(span: int): Bucket {
    if span <= DAY_US then Hour else Day
  }

  /** Days a named window reaches back; "all" reaches back to the retention. */
  function WindowDays(name: string): Option<int> {
    if name == "24h" then Some(1) else if name == "7d" then Some(7) else if name == "30d" then Some(30) else None
  }

  function NameOf(window: Option<string>): string {
    if window.Some? && window.value != "" then window.value else "30d"
  }

  function Floor(now: int, retentionDays: int): int {
    now - retentionDays * DAY_US
  }

  function ResolveCustom(start: Bound, end: Option<Bound>, retentionDays: int, now: int): Result<Resolved, WindowError> {
    var startAt := ParseBound(start, false);
    var endAt := if end.Some? then ParseBound(end.value, true) else Some(Utc(now));
    if startAt.None? || endAt.None? then Err(BadBound)
    else if startAt.value.us >= endAt.value.us then Err(EmptyRange)
    else
      var clamped := LaterMoment(startAt.value, Utc(Floor(now, retentionDays)));
      if end.Some? && clamped.us >= endAt.value.us then Err(BeforeRetention)
      else
        Ok(Resolved("custom", clamped, if end.Some? then endAt else None, BucketFor(endAt.value.us - clamped.us),
                    clamped.us > startAt.value.us))
  }

  function ResolveNamed(window: Option<string>, retentionDays: int, now: int): Result<Resolved, WindowError> {
    var name := NameOf(window);
    if name == "custom" then Err(CustomWithoutStart)
    else if name == "all" then Ok(Resolved(name, Utc(Floor(now, retentionDays)), None, Day, false))
    else if WindowDays(name).None? then Err(UnknownWindow)
    else
      var startAt := Utc(now - WindowDays(name).value * DAY_US);
      var clamped := LaterMoment(startAt, Utc(Floor(now, retentionDays)));
      Ok(Resolved(name, clamped, None, BucketFor(now - clamped.us), clamped.us > startAt.us))
  }

  function ResolveWindow(window: Option<string>, start: Option<Bound>, end: Option<Bound>, retentionDays: int, now: int)
      : Result<Resolved, WindowError> {
    if start.Some? then ResolveCustom(start.value, end, retentionDays, now)
    else if end.Some? then Err(EndWithoutStart)
    else ResolveNamed(window, retentionDays, now)
  }

  /** The rows a resolved window's texts select: each bound covers from where its text no longer sorts behind a row. */
  function Query(r: Resolved): Window {
    Window(FirstCovered(r.start), if r.end.Some? then Some(FirstCovered(r.end.value)) else None)
  }

  /** The instant a bound names: a day begins at midnight UTC, and as an end it is the midnight after. */
  function InstantOf(bound: Bound, isEnd: bool): Option<int> {
    match bound
    case Malformed => None
    case OnDay(day) => Some(86_400_000_000 * (if isEnd then day + 1 else day))
    case Instant(moment) => Some(moment.us)
  }

  /** The instant a request asks to start at; "all" asks for what is kept. */
  function AskedStart(window: Option<string>, start: Option<Bound>, retentionDays: int, now: int): Option<int> {
    match start
    case Some(bound) => InstantOf(bound, false)
    case None =>
      if window == None || window == Some("") || window == Some("30d") then Some(now - 2_592_000_000_000)
      else if window == Some("24h") then Some(now - 86_400_000_000)
      else if window == Some("7d") then Some(now - 604_800_000_000)
      else if window == Some("all") then Some(now - 86_400_000_000 * retentionDays)
      else None
  }

  /**
   * An accepted window starts at what was asked for or at the retention floor, whichever is
   * later, ends where it was asked to end, or is open, and starts before its end (or before
   * now). It asks for hours exactly when a day or less is shown, except that "all" is by days,
   * and says it was cut exactly when more was asked for than is kept; uncut bounds are kept as
   * they were written, offset and all.
   */
  lemma AcceptedWindow(window: Option<string>, start: Option<Bound>, end: Option<Bound>, retentionDays: int, now: int)
    requires retentionDays > 0
    ensures var r := ResolveWindow(window, start, end, retentionDays, now);
            r.Ok? ==>
              var asked, floor := AskedStart(window, start, retentionDays, now), now - 86_400_000_000 * retentionDays;
              var from, to_ := r.value.start.us, if r.value.end.Some? then r.value.end.value.us else now;
              && asked.Some? && (asked.value >= floor ==> from == asked.value) && (asked.value < floor ==> from == floor) && from < to_
              && (end.Some? <==> r.value.end.Some?) && (end.Some? ==> InstantOf(end.value, true) == Some(to_))
              && (r.value.name == (if start.Some? then "custom" else if window == None || window == Some("") then "30d" else window.value))
              && (r.value.name != "all" ==> (r.value.bucket.Hour? <==> to_ - from <= 86_400_000_000))
              && (r.value.name == "all" ==> r.value.bucket.Day?)
              && (r.value.clamped <==> asked.value < floor)
              && (start.Some? && start.value.Instant? && asked.value >= floor ==> r.value.start == start.value.moment)
              && (!(start.Some? && start.value.Instant?) || r.value.clamped ==> r.value.start.offset == 0)
              && (end.Some? && end.value.Instant? ==> r.value.end == Some(end.value.moment))
              && (end.Some? && end.value.OnDay? ==> r.value.end.value.offset == 0)
  {
  }

  /**
   * When a request is refused, and why: a bound that cannot be read, an empty range, a range of
   * which nothing is kept, an end without a start, "custom" without one, or an unknown name.
   */
  lemma RefusalsMean(window: Option<string>, start: Option<Bound>, end: Option<Bound>, retentionDays: int, now: int)
    requires retentionDays > 0
    ensures var r, floor := ResolveWindow(window, start, end, retentionDays, now), now - 86_400_000_000 * retentionDays;
            match start
            case Some(bound) =>
              var from, to_ := InstantOf(bound, false), if end.Some? then InstantOf(end.value, true) else Some(now);
              && (r == Err(BadBound) <==> from.None? || to_.None?)
              && (r == Err(EmptyRange) <==> from.Some? && to_.Some? && from.value >= to_.value)
              && (r == Err(BeforeRetention) <==>
                    end.Some? && from.Some? && to_.Some? && from.value < to_.value && to_.value <= floor)
              && (r.Err? ==> r.error in {BadBound, EmptyRange, BeforeRetention})
            case None =>
              && (r == Err(EndWithoutStart) <==> end.Some?)
              && (r == Err(CustomWithoutStart) <==> end.None? && window == Some("custom"))
              && (r == Err(UnknownWindow) <==>
                    end.None? && window.Some? && window.value !in {"", "24h", "7d", "30d", "all", "custom"})
              && (r.Err? ==> r.error in {EndWithoutStart, CustomWithoutStart, UnknownWindow})
  {
  }

  /** A custom range is refused exactly when a bound cannot be read, it is empty, or nothing of it is kept. */
  lemma RefusedCustomIff(window: Option<string>, start: Bound, end: Option<Bound>, retentionDays: int, now: int)
    requires retentionDays > 0
    ensures ResolveWindow(window, Some(start), end, retentionDays, now).Err? <==>
            var s, e := InstantOf(start, false), if end.Some? then InstantOf(end.value, true) else Some(now);
            s.None? || e.None? || s.value >= e.value || e.value <= now - 86_400_000_000 * retentionDays
  {
  }

  // ----- what the sums are

  function CountOf(rows: seq<Row>, which: Row -> bool): nat {
    if rows == [] then 0 else CountOf(rows[1..], which) + (if which(rows[0]) then 1 else 0)
  }

  /** A column summed over some rows; a missing value adds nothing. */
  function SumOf(rows: seq<Row>, which: Row -> bool, column: Row -> Option<int>): int {
    if rows == [] then 0
    else SumOf(rows[1..], which, column) + (if which(rows[0]) && column(rows[0]).Some? then column(rows[0]).value else 0)
  }

  function RealSumOf(rows: seq<Row>, which: Row -> bool, column: Row -> Option<real>): real {
    if rows == [] then 0.0
    else RealSumOf(rows[1..], which, column) + (if which(rows[0]) && column(rows[0]).Some? then column(rows[0]).value else 0.0)
  }

  /** Failed requests, and error statuses that are no deliberate rejection. */
  predicate CountsAsError(row: Row) {
    row.error != None || (row.rejected == None && row.status.Some? && !(row.status.value < 400))
  }

  /** The ten counters of some rows. */
  predicate Tallies(t: Stats, rows: seq<Row>, which: Row -> bool) {
    && t.requests == CountOf(rows, which)
    && t.errors == CountOf(rows, (row: Row) => which(row) && CountsAsError(row))
    && t.priced == CountOf(rows, (row: Row) => which(row) && row.cost != None)
    && t.duration == RealSumOf(rows, which, (row: Row) => row.duration)
    && t.cost == RealSumOf(rows, which, (row: Row) => row.cost)
    && t.usage.input == SumOf(rows, which, (row: Row) => row.tokens.input)
    && t.usage.output == SumOf(rows, which, (row: Row) => row.tokens.output)
    && t.usage.cacheCreation == SumOf(rows, which, (row: Row) => row.tokens.cacheWrite)
    && t.usage.cacheRead == SumOf(rows, which, (row: Row) => row.tokens.cacheRead)
  }

  lemma {:induction false} CountPush(rows: seq<Row>, last: Row, which: Row -> bool)
    ensures CountOf(rows + [last], which) == CountOf(rows, which) + (if which(last) then 1 else 0)
  {
    if rows == [] {
      assert ([] + [last])[1..] == [];
    } else {
      assert (rows + [last])[1..] == rows[1..] + [last];
      CountPush(rows[1..], last, which);
    }
  }

  lemma {:induction false} SumOfPush(rows: seq<Row>, last: Row, which: Row -> bool, column: Row -> Option<int>)
    ensures SumOf(rows + [last], which, column)
              == SumOf(rows, which, column) + (if which(last) && column(last).Some? then column(last).value else 0)
  {
    if rows == [] {
      assert ([] + [last])[1..] == [];
    } else {
      assert (rows + [last])[1..] == rows[1..] + [last];
      SumOfPush(rows[1..], last, which, column);
    }
  }

  lemma {:induction false} RealSumOfPush(rows: seq<Row>, last: Row, which: Row -> bool, column: Row -> Option<real>)
    ensures RealSumOf(rows + [last], which, column)
              == RealSumOf(rows, which, column) + (if which(last) && column(last).Some? then column(last).value else 0.0)
  {
    if rows == [] {
      assert ([] + [last])[1..] == [];
    } else {
      assert (rows + [last])[1..] == rows[1..] + [last];
      RealSumOfPush(rows[1..], last, which, column);
    }
  }

  /** One more row: what it adds to each counter. */
  lemma TallyPush(t: Stats, rows: seq<Row>, last: Row, which: Row -> bool)
    requires Tallies(t, rows, which)
    ensures Tallies(if which(last) then t.Plus(RowStats(last)) else t, rows + [last], which)
  {
    hide CountOf, SumOf, RealSumOf;
    CountPush(rows, last, which);
    CountPush(rows, last, (row: Row) => which(row) && CountsAsError(row));
    CountPush(rows, last, (row: Row) => which(row) && row.cost != None);
    RealSumOfPush(rows, last, which, (row: Row) => row.duration);
    RealSumOfPush(rows, last, which, (row: Row) => row.cost);
    SumOfPush(rows, last, which, (row: Row) => row.tokens.input);
    SumOfPush(rows, last, which, (row: Row) => row.tokens.output);
    SumOfPush(rows, last, which, (row: Row) => row.tokens.cacheWrite);
    SumOfPush(rows, last, which, (row: Row) => row.tokens.cacheRead);
  }

  lemma {:induction false} TotalsTally(rows: seq<Row>, keep: Row -> bool, which: Row -> bool)
    requires forall row :: keep(row) <==> which(row)
    ensures Tallies(TotalsOf(Only(rows, keep)), rows, which)
  {
    hide RowStats, Stats.Plus;
    if rows == [] {
      assert TotalsOf(Only(rows, keep)) == NO_STATS;
    } else {
      hide Tallies;
      var front, last := rows[..|rows| - 1], rows[|rows| - 1];
      LastApart(rows);
      TotalsTally(front, keep, which);
      TallyPush(TotalsOf(Only(front, keep)), front, last, which);
      TotalsPush(Only(front, keep), last);
      NoneAdded(Only(front, keep));
    }
  }

  lemma {:induction false} OnlyOfOnly(rows: seq<Row>, first: Row -> bool, second: Row -> bool, both: Row -> bool)
    requires forall row :: both(row) <==> first(row) && second(row)
    ensures Only(Only(rows, first), second) == Only(rows, both)
  {
    if rows != [] {
      var front, last := rows[..|rows| - 1], rows[|rows| - 1];
      OnlyOfOnly(front, first, second, both);
      OnlyPush(Only(front, first), last, second);
      NoneAdded(Only(front, first));
      assert both(last) <==> first(last) && second(last);
    }
  }

  /** The rows of a window: from its start on, and before its end when it has one. */
  function InRange(w: Window): Row -> bool {
    (row: Row) => row.ts >= w.start && (w.end == None || row.ts < w.end.value)
  }

  /** The totals of a window are the counters of its rows. */
  lemma RangeTotalsMean(rows: seq<Row>, w: Window)
    ensures Tallies(RangeTotals(rows, w), rows, InRange(w))
  {
    hide Tallies;
    TotalsTally(rows, InWindow(w), InRange(w));
  }

  /** The rows of one hour or day within a window. */
  function OfBucket(w: Window, bucket: Bucket, number: int): Row -> bool {
    (row: Row) =>
      && InRange(w)(row)
      && if bucket == Day then 86_400_000_000 * number <= row.ts < 86_400_000_000 * (number + 1)
         else 3_600_000_000 * number <= row.ts < 3_600_000_000 * (number + 1)
  }

  /** Each point of a series has the counters of the window's rows of its hour or day. */
  lemma SeriesMeans(rows: seq<Row>, w: Window, bucket: Bucket, i: nat)
    requires i < |RangeSeries(rows, w, bucket)|
    ensures var point := RangeSeries(rows, w, bucket)[i];
            Tallies(point.stats, rows, OfBucket(w, bucket, point.bucket))
  {
    hide Tallies, TotalsOf, Only, Keys;
    var point := RangeSeries(rows, w, bucket)[i];
    var ofBucket, both := WithKey(BucketOf(bucket), point.bucket), OfBucket(w, bucket, point.bucket);
    forall row ensures both(row) <==> InWindow(w)(row) && ofBucket(row) {
      BucketMeans(w, bucket, point.bucket, row);
    }
    OnlyOfOnly(rows, InWindow(w), ofBucket, both);
    TotalsTally(rows, both, both);
  }

  lemma BucketMeans(w: Window, bucket: Bucket, number: int, row: Row)
    ensures OfBucket(w, bucket, number)(row) <==> InWindow(w)(row) && WithKey(BucketOf(bucket), number)(row)
  {
    WithinBucket(row.ts, number, if bucket == Day then 86_400_000_000 else 3_600_000_000);
    assert InRange(w)(row) <==> InWindow(w)(row);
    assert WithKey(BucketOf(bucket), number)(row) <==> BucketOf(bucket)(row) == number;
  }

  lemma WithinBucket(ts: int, bucket: int, size: int)
    requires size in {3_600_000_000, 86_400_000_000}
    ensures ts / size == bucket <==> bucket * size <= ts < (bucket + 1) * size
  {
  }

  /** A streamed answer with a timed first token and at least a quarter of a second of generation. */
  predicate Generates(row: Row) {
    && row.endpoint == Some("messages") && row.stream == Some(1) && row.model != None
    && row.tokens.output.Some? && row.tokens.output.value >= 1
    && row.ttft.Some? && row.duration.Some? && row.duration.value >= row.ttft.value + 250.0
  }

  predicate Sums(t: Throughput, rows: seq<Row>, which: Row -> bool) {
    && t.requests == CountOf(rows, which)
    && t.outputTokens == SumOf(rows, which, (row: Row) => row.tokens.output)
    && t.ttft == RealSumOf(rows, which, (row: Row) => row.ttft)
    && t.generation + t.ttft == RealSumOf(rows, which, (row: Row) => row.duration)
  }

  lemma ThroughputPush(rows: seq<Row>, last: Row)
    ensures var t, after := ThroughputOf(rows), ThroughputOf(rows + [last]);
            && after.requests == t.requests + 1 && after.outputTokens == t.outputTokens + last.tokens.output.GetOr(0)
            && after.ttft == t.ttft + last.ttft.GetOr(0.0)
            && after.generation == t.generation + (last.duration.GetOr(0.0) - last.ttft.GetOr(0.0))
  {
    assert (rows + [last])[..|rows|] == rows;
  }

  lemma SumsPush(picked: seq<Row>, rows: seq<Row>, last: Row, which: Row -> bool)
    requires Sums(ThroughputOf(picked), rows, which)
    ensures Sums(ThroughputOf(if which(last) then picked + [last] else picked), rows + [last], which)
  {
    hide CountOf, SumOf, RealSumOf, ThroughputOf;
    CountPush(rows, last, which);
    SumOfPush(rows, last, which, (row: Row) => row.tokens.output);
    RealSumOfPush(rows, last, which, (row: Row) => row.ttft);
    RealSumOfPush(rows, last, which, (row: Row) => row.duration);
    ThroughputPush(picked, last);
  }

  lemma {:induction false} ThroughputSums(rows: seq<Row>, which: Row -> bool)
    ensures Sums(ThroughputOf(Only(rows, which)), rows, which)
    ensures |Only(rows, which)| == CountOf(rows, which)
  {
    if rows != [] {
      hide CountOf, Sums, ThroughputOf;
      var front, last := rows[..|rows| - 1], rows[|rows| - 1];
      LastApart(rows);
      ThroughputSums(front, which);
      CountPush(front, last, which);
      SumsPush(Only(front, which), front, last, which);
      NoneAdded(Only(front, which));
    }
  }

  /** The rows of one pair of provider and model within a window. */
  function OfRoute(w: Window, route: Route): Row -> bool {
    (row: Row) => InRange(w)(row) && row.provider == route.provider && row.model == route.model
  }

  function Generating(w: Window, route: Route): Row -> bool {
    (row: Row) => OfRoute(w, route)(row) && Generates(row)
  }

  /**
   * Every entry of the breakdown has the counters of its pair's rows, and its throughput is the
   * sums over those of them that generate: none when no row does.
   */
  lemma BreakdownMeans(rows: seq<Row>, w: Window, e: Entry)
    requires e in BreakdownOf(rows, w)
    ensures Tallies(e.stats, rows, OfRoute(w, e.route))
    ensures e.throughput.Some? <==> CountOf(rows, Generating(w, e.route)) > 0
    ensures e.throughput.Some? ==> Sums(e.throughput.value, rows, Generating(w, e.route))
  {
    hide Tallies, TotalsOf, Only, Keys, Sums, ThroughputOf, Qualifies, Generates;
    BreakdownSums(rows, w);
    var row :| row in Within(rows, w) && e == EntryOf(Within(rows, w), RouteOf()(row));
    var ofRoute, both, generating := WithKey(RouteOf(), e.route), OfRoute(w, e.route), Generating(w, e.route);
    var qualifying := (row: Row) => Qualifies(row);
    forall row ensures both(row) <==> InWindow(w)(row) && ofRoute(row) {
      RouteMeans(w, e.route, row);
    }
    forall row ensures generating(row) <==> both(row) && qualifying(row) {
      QualifiesIff(row);
    }
    OnlyOfOnly(rows, InWindow(w), ofRoute, both);
    OnlyOfOnly(rows, both, qualifying, generating);
    TotalsTally(rows, both, both);
    ThroughputSums(rows, generating);
  }

  lemma RouteMeans(w: Window, route: Route, row: Row)
    ensures OfRoute(w, route)(row) <==> InWindow(w)(row) && WithKey(RouteOf(), route)(row)
  {
    assert InRange(w)(row) <==> InWindow(w)(row);
    assert WithKey(RouteOf(), route)(row) <==> RouteOf()(row) == route;
  }

  lemma QualifiesIff(row: Row)
    ensures Qualifies(row) <==> Generates(row)
  {
  }

  /** The shown order: providers by name, the busiest pair first, then models by name, missing names last. */
  lemma BreakdownOrder(rows: seq<Row>, w: Window, i: nat, j: nat)
    requires i < j < |BreakdownOf(rows, w)|
    ensures var a, b := BreakdownOf(rows, w)[i], BreakdownOf(rows, w)[j];
            && (a.route.provider == None ==> b.route.provider == None)
            && (a.route.provider.Some? && b.route.provider.Some? ==> StringLeq(a.route.provider.value, b.route.provider.value))
            && (a.route.provider == b.route.provider ==> a.stats.requests >= b.stats.requests)
            && (a.route.provider == b.route.provider && a.stats.requests == b.stats.requests ==>
                  && (a.route.model == None ==> b.route.model == None)
                  && (a.route.model.Some? && b.route.model.Some? ==> StringLeq(a.route.model.value, b.route.model.value)))
  {
    hide BreakdownOf;
    BreakdownSums(rows, w);
    var a, b := BreakdownOf(rows, w)[i], BreakdownOf(rows, w)[j];
    assert ByShown()(a, b);
    if a.route.provider.Some? {
      StringLeqTotal(a.route.provider.value, a.route.provider.value);
    }
  }

  /** Pruning keeps exactly the rows from the cutoff on, in place. */
  lemma {:induction false} SinceMeans(rows: seq<Row>, cutoff: int, row: Row)
    ensures multiset(Since(rows, cutoff))[row] == if row.ts >= cutoff then multiset(rows)[row] else 0
  {
    if rows != [] {
      LastApart(rows);
      SinceMeans(rows[..|rows| - 1], cutoff, row);
    }
  }

  // ----- windows add up

  lemma TotalsPush(rows: seq<Row>, row: Row)
    ensures TotalsOf(rows + [row]) == TotalsOf(rows).Plus(RowStats(row))
  {
    assert (rows + [row])[..|rows|] == rows;
  }

  /** Rows told apart by two conditions that exclude each other add up to the rows of either. */
  lemma {:induction false} SplitTotals(rows: seq<Row>, one: Row -> bool, two: Row -> bool, either: Row -> bool)
    requires forall row :: either(row) <==> one(row) || two(row)
    requires forall row :: !(one(row) && two(row))
    ensures TotalsOf(Only(rows, one)).Plus(TotalsOf(Only(rows, two))) == TotalsOf(Only(rows, either))
  {
    hide RowStats, TotalsOf, Stats.Plus;
    if rows == [] {
      NoTotals();
    } else {
      var front, last := rows[..|rows| - 1], rows[|rows| - 1];
      SplitTotals(front, one, two, either);
      OnlyTotals(front, last, one);
      OnlyTotals(front, last, two);
      OnlyTotals(front, last, either);
      assert rows == front + [last];
      assert either(last) <==> one(last) || two(last);
      PlusSwaps(TotalsOf(Only(front, one)), TotalsOf(Only(front, two)), RowStats(last));
      PlusAssociative(TotalsOf(Only(front, one)), TotalsOf(Only(front, two)), RowStats(last));
    }
  }

  lemma NoTotals()
    ensures TotalsOf([]) == NO_STATS && NO_STATS.Plus(NO_STATS) == NO_STATS
  {
    NothingAdds(NO_STATS);
  }

  lemma OnlyTotals(front: seq<Row>, last: Row, keep: Row -> bool)
    ensures TotalsOf(Only(front + [last], keep)) ==
            if keep(last) then TotalsOf(Only(front, keep)).Plus(RowStats(last)) else TotalsOf(Only(front, keep))
  {
    hide RowStats, TotalsOf, Stats.Plus;
    OnlyPush(front, last, keep);
    TotalsPush(Only(front, keep), last);
    assert Only(front, keep) + [] == Only(front, keep);
  }

  /** Adjoining windows add up to the window over both. */
  lemma AdjoiningWindows(rows: seq<Row>, start: int, middle: int, end: Option<int>)
    requires start <= middle && (end.Some? ==> middle <= end.value)
    ensures RangeTotals(rows, Window(start, Some(middle))).Plus(RangeTotals(rows, Window(middle, end)))
            == RangeTotals(rows, Window(start, end))
  {
    SplitTotals(rows, InWindow(Window(start, Some(middle))), InWindow(Window(middle, end)), InWindow(Window(start, end)));
  }

  // ----- groups add up

  predicate Distinct<K(==)>(ks: seq<K>) {
    forall i, j :: 0 <= i < j < |ks| ==> ks[i] != ks[j]
  }

  lemma {:induction false} KeysMean<K>(rows: seq<Row>, key: Row -> K)
    ensures Distinct(Keys(rows, key))
    ensures forall k :: k in Keys(rows, key) <==> exists row :: row in rows && key(row) == k
  {
    if rows != [] {
      var front, last := rows[..|rows| - 1], rows[|rows| - 1];
      KeysMean(front, key);
      assert rows == front + [last];
      assert last in rows;
    }
  }

  lemma {:induction false} NothingSums(parts: seq<Stats>)
    requires forall i :: 0 <= i < |parts| ==> parts[i] == NO_STATS
    ensures Sum(parts) == NO_STATS
  {
    hide Stats.Plus, NO_STATS;
    if parts != [] {
      NothingAdds(NO_STATS);
      NothingSums(parts[..|parts| - 1]);
    }
  }

  /** Grouped by any key, the groups' totals sum to the totals. */
  lemma {:induction false} GroupsSum<K>(rows: seq<Row>, key: Row -> K, ks: seq<K>)
    requires Distinct(ks) && forall row :: row in rows ==> key(row) in ks
    ensures Sum(GroupTotals(rows, key, ks)) == TotalsOf(rows)
  {
    hide Stats.Plus, NO_STATS, RowStats;
    if rows == [] {
      NoTotals();
      NothingSums(GroupTotals(rows, key, ks));
    } else {
      var front, last := rows[..|rows| - 1], rows[|rows| - 1];
      assert rows == front + [last];
      assert forall row :: row in front ==> row in rows;
      GroupsSum(front, key, ks);
      assert last in rows;
      var j :| 0 <= j < |ks| && ks[j] == key(last);
      GroupsPush(front, last, key, ks, j);
      SumUpdate(GroupTotals(front, key, ks), j, RowStats(last));
    }
  }

  lemma GroupsPush<K>(front: seq<Row>, last: Row, key: Row -> K, ks: seq<K>, j: nat)
    requires Distinct(ks) && j < |ks| && ks[j] == key(last)
    ensures var before := GroupTotals(front, key, ks);
            GroupTotals(front + [last], key, ks) == before[j := before[j].Plus(RowStats(last))]
  {
    hide RowStats, TotalsOf, Stats.Plus, Only;
    forall i | 0 <= i < |ks|
      ensures TotalsOf(Only(front + [last], WithKey(key, ks[i]))) ==
              if i == j then TotalsOf(Only(front, WithKey(key, ks[i]))).Plus(RowStats(last))
              else TotalsOf(Only(front, WithKey(key, ks[i])))
    {
      OnlyTotals(front, last, WithKey(key, ks[i]));
    }
  }

  lemma {:induction false} SortedKeepsDistinct<K>(a: seq<K>, b: seq<K>)
    requires Distinct(a) && multiset(a) == multiset(b)
    ensures Distinct(b) && forall k :: k in a <==> k in b
  {
    forall k ensures k in a <==> k in b {
      assert k in multiset(a) <==> k in multiset(b);
    }
    forall i, j | 0 <= i < j < |b| ensures b[i] != b[j] {
      if b[i] == b[j] {
        TwiceCounts(b, i, j);
        OnceCounts(a, b[i]);
        assert false;
      }
    }
  }

  lemma TwiceCounts<K>(s: seq<K>, i: nat, j: nat)
    requires i < j < |s| && s[i] == s[j]
    ensures multiset(s)[s[i]] >= 2
  {
    assert s == s[..i] + [s[i]] + s[i + 1..j] + [s[j]] + s[j + 1..];
  }

  lemma {:induction false} OnceCounts<K>(s: seq<K>, k: K)
    requires Distinct(s)
    ensures multiset(s)[k] <= 1
  {
    if s != [] {
      var front, last := s[..|s| - 1], s[|s| - 1];
      OnceCounts(front, k);
      assert s == front + [last];
      assert forall i :: 0 <= i < |front| ==> s[i] != last;
    }
  }

  function PointStats(series: seq<Point>): seq<Stats> {
    seq(|series|, i requires 0 <= i < |series| => series[i].stats)
  }

  function EntryStats(entries: seq<Entry>): seq<Stats> {
    seq(|entries|, i requires 0 <= i < |entries| => entries[i].stats)
  }

  lemma AscendingOrders()
    ensures TotalPreorder(Ascending())
  {
  }

  /** The series has every bucket once, oldest first, and its points sum to the window's totals. */
  lemma SeriesSums(rows: seq<Row>, w: Window, bucket: Bucket)
    ensures var series := RangeSeries(rows, w, bucket);
            && Sum(PointStats(series)) == RangeTotals(rows, w)
            && forall i, j :: 0 <= i < j < |series| ==> series[i].bucket < series[j].bucket
  {
    hide TotalsOf, Only, SortBy, Keys, TotalPreorder;
    var covered := Within(rows, w);
    var key := BucketOf(bucket);
    var buckets := Buckets(covered, bucket);
    KeysMean(covered, key);
    SortByCounts(Ascending(), Keys(covered, key));
    AscendingOrders();
    SortBySorts(Ascending(), Keys(covered, key));
    SortedKeepsDistinct(Keys(covered, key), buckets);
    GroupsSum(covered, key, buckets);
    assert PointStats(RangeSeries(rows, w, bucket)) == GroupTotals(covered, key, buckets);
  }

  // ----- the breakdown

  lemma NameLeqOrders()
    ensures forall a, b :: NameLeq(a, b) || NameLeq(b, a)
    ensures forall a, b :: NameLeq(a, b) && NameLeq(b, a) ==> a == b
    ensures forall a, b, c :: NameLeq(a, b) && NameLeq(b, c) ==> NameLeq(a, c)
  {
    forall a: Option<string>, b: Option<string>
      ensures NameLeq(a, b) || NameLeq(b, a)
      ensures NameLeq(a, b) && NameLeq(b, a) ==> a == b
    {
      if a.Some? && b.Some? {
        StringLeqTotal(a.value, b.value);
      }
    }
    forall a: Option<string>, b: Option<string>, c: Option<string> | NameLeq(a, b) && NameLeq(b, c) ensures NameLeq(a, c) {
      if c.Some? {
        StringLeqTransitive(a.value, b.value, c.value);
      }
    }
  }

  lemma EntryLeqOrders()
    ensures TotalPreorder(ByShown())
  {
    hide NameLeq;
    NameLeqOrders();
    var leq := ByShown();
    forall a: Entry, b: Entry ensures leq(a, b) || leq(b, a) {
      assert leq(a, b) == EntryLeq(a, b) && leq(b, a) == EntryLeq(b, a);
    }
    forall a: Entry, b: Entry, c: Entry | leq(a, b) && leq(b, c) ensures leq(a, c) {
      assert EntryLeq(a, b) && EntryLeq(b, c);
    }
  }

  lemma {:induction false} SumPermutes(a: seq<Entry>, b: seq<Entry>)
    requires multiset(a) == multiset(b)
    ensures Sum(EntryStats(a)) == Sum(EntryStats(b))
    decreases |a|
  {
    hide Stats.Plus, NO_STATS;
    if a == [] {
      assert |multiset(b)| == 0;
      assert EntryStats(a) == EntryStats(b);
    } else {
      var x := a[|a| - 1];
      assert x in multiset(b);
      var j :| 0 <= j < |b| && b[j] == x;
      var rest := b[..j] + b[j + 1..];
      TakeOut(a, |a| - 1);
      TakeOut(b, j);
      assert a[..|a| - 1] + a[|a|..] == a[..|a| - 1];
      assert a == a[..|a| - 1] + [x];
      SumPermutes(a[..|a| - 1], rest);
      EntryStatsPush(a[..|a| - 1], x);
      SumMove(b[..j], x, b[j + 1..]);
    }
  }

  lemma TakeOut(s: seq<Entry>, j: nat)
    requires j < |s|
    ensures s == s[..j] + [s[j]] + s[j + 1..] && multiset(s[..j] + s[j + 1..]) == multiset(s) - multiset{s[j]}
  {
    assert s == s[..j] + [s[j]] + s[j + 1..];
  }

  lemma EntryStatsPush(entries: seq<Entry>, x: Entry)
    ensures Sum(EntryStats(entries + [x])) == Sum(EntryStats(entries)).Plus(x.stats)
  {
    assert EntryStats(entries + [x]) == EntryStats(entries) + [x.stats];
    SumPush(EntryStats(entries), x.stats);
  }

  lemma SumMove(a: seq<Entry>, x: Entry, b: seq<Entry>)
    ensures Sum(EntryStats(a + [x] + b)) == Sum(EntryStats(a + b)).Plus(x.stats)
  {
    assert EntryStats(a + [x] + b) == EntryStats(a + [x]) + EntryStats(b);
    assert EntryStats(a + b) == EntryStats(a) + EntryStats(b);
    SumConcat(EntryStats(a + [x]), EntryStats(b));
    SumConcat(EntryStats(a), EntryStats(b));
    EntryStatsPush(a, x);
  }

  /**
   * The breakdown sums to the window's totals, names each provider and model pair of the
   * window once, carries that pair's own counters and throughput, and is in the shown order.
   */
  lemma BreakdownSums(rows: seq<Row>, w: Window)
    ensures var entries := BreakdownOf(rows, w);
            && Sum(EntryStats(entries)) == RangeTotals(rows, w)
            && SortedBy(ByShown(), entries)
            && (forall e :: e in entries <==> exists row :: row in Within(rows, w) && e == EntryOf(Within(rows, w), RouteOf()(row)))
            && (forall i, j :: 0 <= i < j < |entries| ==> entries[i].route != entries[j].route)
  {
    hide TotalsOf, Only, SortBy, Keys, EntryOf, TotalPreorder, SortedBy, Sum;
    var covered := Within(rows, w);
    var routes := Keys(covered, RouteOf());
    var listed, entries := EntriesOf(covered, routes), BreakdownOf(rows, w);
    KeysMean(covered, RouteOf());
    EntryLeqOrders();
    SortByCounts(ByShown(), listed);
    SortBySorts(ByShown(), listed);
    SumPermutes(entries, listed);
    GroupsSum(covered, RouteOf(), routes);
    ListedTotals(covered, routes);
    ListedDistinct(covered, routes);
    SortedKeepsDistinct(listed, entries);
    ListedRoutes(covered, routes, entries);
    forall e ensures e in entries <==> exists row :: row in covered && e == EntryOf(covered, RouteOf()(row)) {
      ListedEntries(covered, e);
    }
  }

  lemma ListedTotals(covered: seq<Row>, routes: seq<Route>)
    ensures EntryStats(EntriesOf(covered, routes)) == GroupTotals(covered, RouteOf(), routes)
  {
  }

  lemma ListedDistinct(covered: seq<Row>, routes: seq<Route>)
    requires Distinct(routes)
    ensures Distinct(EntriesOf(covered, routes))
  {
    var listed := EntriesOf(covered, routes);
    forall i, j | 0 <= i < j < |listed| ensures listed[i] != listed[j] {
      assert listed[i].route == routes[i] && listed[j].route == routes[j];
    }
  }

  lemma ListedRoutes(covered: seq<Row>, routes: seq<Route>, entries: seq<Entry>)
    requires Distinct(entries) && forall e :: e in entries ==> e in EntriesOf(covered, routes)
    ensures forall i, j :: 0 <= i < j < |entries| ==> entries[i].route != entries[j].route
  {
    forall i, j | 0 <= i < j < |entries| ensures entries[i].route != entries[j].route {
      assert entries[i] in EntriesOf(covered, routes) && entries[j] in EntriesOf(covered, routes);
      assert entries[i] == EntryOf(covered, entries[i].route) && entries[j] == EntryOf(covered, entries[j].route);
    }
  }

  lemma ListedEntries(covered: seq<Row>, e: Entry)
    ensures e in EntriesOf(covered, Keys(covered, RouteOf())) <==> exists row :: row in covered && e == EntryOf(covered, RouteOf()(row))
  {
    hide TotalsOf, Only, Keys, EntryOf;
    var routes := Keys(covered, RouteOf());
    var listed := EntriesOf(covered, routes);
    KeysMean(covered, RouteOf());
    if e in listed {
      var i :| 0 <= i < |listed| && listed[i] == e;
      assert routes[i] in routes;
      var row :| row in covered && RouteOf()(row) == routes[i];
      assert e == EntryOf(covered, RouteOf()(row));
    } else {
      forall row | row in covered ensures e != EntryOf(covered, RouteOf()(row)) {
        assert RouteOf()(row) in routes;
        var i :| 0 <= i < |routes| && routes[i] == RouteOf()(row);
        assert listed[i] == EntryOf(covered, routes[i]);
      }
    }
  }

  // ----- pruning

  /**
   * A query that asks for no row from before the floor: its start is not before it, or it asks
   * for no rows at all.
   */
  predicate AsksForKept(r: Resolved, floor: int) {
    var w := Query(r);
    floor <= w.start || (w.end.Some? && w.end.value <= w.start)
  }

  /** An accepted window whose start is written in UTC, or was cut at the floor, asks only for what is kept. */
  lemma UtcAsksForKept(window: Option<string>, start: Option<Bound>, end: Option<Bound>, retentionDays: int, now: int)
    requires retentionDays > 0 && ResolveWindow(window, start, end, retentionDays, now).Ok?
    requires start.Some? && start.value.Instant? ==>
               start.value.moment.offset == 0 || ResolveWindow(window, start, end, retentionDays, now).value.clamped
    ensures AsksForKept(ResolveWindow(window, start, end, retentionDays, now).value, Floor(now, retentionDays))
  {
    AcceptedWindow(window, start, end, retentionDays, now);
  }

  lemma {:induction false} NothingWithin(rows: seq<Row>, w: Window)
    requires w.end.Some? && w.end.value <= w.start
    ensures Within(rows, w) == []
  {
    if rows != [] {
      NothingWithin(rows[..|rows| - 1], w);
    }
  }

  /**
   * A window that asks only for what is kept reads the same totals, series, breakdown and groups
   * from the pruned store as from everything ever recorded, when no prune so far used a later
   * cutoff than the floor.
   */
  lemma PruningIsInvisible(kept: seq<Row>, log: seq<Row>, prunedTo: int, r: Resolved, floor: int)
    requires AsksForKept(r, floor) && prunedTo <= floor
    requires Since(kept, prunedTo) == Since(log, prunedTo)
    ensures var w := Query(r);
            && RangeTotals(kept, w) == RangeTotals(log, w)
            && RangeSeries(kept, w, r.bucket) == RangeSeries(log, w, r.bucket)
            && BreakdownOf(kept, w) == BreakdownOf(log, w)
            && forall name :: GroupedTotals(kept, w, name) == GroupedTotals(log, w, name)
  {
    var w := Query(r);
    if floor <= w.start {
      SinceKeeps(kept, prunedTo, w);
      SinceKeeps(log, prunedTo, w);
    } else {
      NothingWithin(kept, w);
      NothingWithin(log, w);
    }
    assert Within(kept, w) == Within(log, w);
  }

  /** A store written and pruned along a clock that does not go back. */
  datatype StoreStep = Written(row: Row) | Pruned(at: int)

  predicate OnTime(steps: seq<StoreStep>, now: int) {
    forall k :: 0 <= k < |steps| && steps[k].Pruned? ==> steps[k].at <= now
  }

  function RunStore(steps: seq<StoreStep>, retentionDays: int): seq<Row> {
    if steps == [] then []
    else
      var rows := RunStore(steps[..|steps| - 1], retentionDays);
      match steps[|steps| - 1]
      case Written(row) => rows + [row]
      case Pruned(at) => Since(rows, Floor(at, retentionDays))
  }

  function RunLog(steps: seq<StoreStep>): seq<Row> {
    if steps == [] then []
    else RunLog(steps[..|steps| - 1]) + (if steps[|steps| - 1].Written? then [steps[|steps| - 1].row] else [])
  }

  lemma {:induction false} RunKeeps(steps: seq<StoreStep>, retentionDays: int, now: int)
    requires OnTime(steps, now)
    ensures Since(RunStore(steps, retentionDays), Floor(now, retentionDays)) == Since(RunLog(steps), Floor(now, retentionDays))
  {
    if steps != [] {
      var front, last := steps[..|steps| - 1], steps[|steps| - 1];
      RunKeeps(front, retentionDays, now);
      var w := Window(Floor(now, retentionDays), None);
      match last
      case Written(row) =>
        OnlyPush(RunStore(front, retentionDays), row, InWindow(w));
        OnlyPush(RunLog(front), row, InWindow(w));
      case Pruned(at) =>
        assert steps[|steps| - 1].at <= now;
        SinceKeeps(RunStore(front, retentionDays), Floor(at, retentionDays), w);
        assert RunLog(front) + [] == RunLog(front);
    }
  }

  /**
   * Over every run of writes and prunes up to now, an accepted window that asks only for what is
   * kept shows all that was ever recorded in it.
   */
  lemma AcceptedWindowsAreWhole(steps: seq<StoreStep>, window: Option<string>, start: Option<Bound>, end: Option<Bound>,
                                retentionDays: int, now: int)
    requires OnTime(steps, now) && ResolveWindow(window, start, end, retentionDays, now).Ok?
    requires AsksForKept(ResolveWindow(window, start, end, retentionDays, now).value, Floor(now, retentionDays))
    ensures var r := ResolveWindow(window, start, end, retentionDays, now).value;
            var rows, log, w := RunStore(steps, retentionDays), RunLog(steps), Query(r);
            && RangeTotals(rows, w) == RangeTotals(log, w)
            && RangeSeries(rows, w, r.bucket) == RangeSeries(log, w, r.bucket)
            && BreakdownOf(rows, w) == BreakdownOf(log, w)
  {
    RunKeeps(steps, retentionDays, now);
    PruningIsInvisible(RunStore(steps, retentionDays), RunLog(steps), Floor(now, retentionDays),
                       ResolveWindow(window, start, end, retentionDays, now).value, Floor(now, retentionDays));
  }

  function BlankRow(ts: int): Row {
    Row(ts, None, None, None, None, None, None, None, None, Tokens(None, None, None, None), None, None)
  }

  lemma RunPush(steps: seq<StoreStep>, row: Row, at: int, retentionDays: int)
    ensures RunStore(steps + [Written(row)], retentionDays) == RunStore(steps, retentionDays) + [row]
    ensures RunLog(steps + [Written(row)]) == RunLog(steps) + [row]
    ensures RunStore(steps + [Pruned(at)], retentionDays) == Since(RunStore(steps, retentionDays), Floor(at, retentionDays))
    ensures RunLog(steps + [Pruned(at)]) == RunLog(steps)
  {
    hide Since;
    assert (steps + [Written(row)])[..|steps|] == steps && (steps + [Pruned(at)])[..|steps|] == steps;
  }

  /** A row written and a prune after it: what the store and the log hold. */
  lemma WrittenThenPruned(row: Row, at: int, retentionDays: int)
    ensures var steps := [Written(row), Pruned(at)];
            && RunLog(steps) == [row]
            && RunStore(steps, retentionDays) == if Floor(at, retentionDays) <= row.ts then [row] else []
  {
    RunPush([], row, at, retentionDays);
    RunPush([Written(row)], row, at, retentionDays);
    assert [] + [Written(row)] == [Written(row)] && [Written(row)] + [Pruned(at)] == [Written(row), Pruned(at)];
    OneWithin(row, Window(Floor(at, retentionDays), None));
  }

  lemma OneWithin(row: Row, w: Window)
    ensures Within([row], w) == if Covers(w, row.ts) then [row] else []
    ensures RangeTotals([row], w).requests == (if Covers(w, row.ts) then 1 else 0) && RangeTotals([], w).requests == 0
  {
    assert [row][..0] == [];
    assert Only([], InWindow(w)) == [];
    assert TotalsOf([]) == NO_STATS;
  }

  /** Exactly the windows that ask only for what is kept are whole in every run. */
  lemma AcceptedWindowsAreWholeIff(window: Option<string>, start: Option<Bound>, end: Option<Bound>, retentionDays: int, now: int)
    requires ResolveWindow(window, start, end, retentionDays, now).Ok?
    ensures var r := ResolveWindow(window, start, end, retentionDays, now).value;
            AsksForKept(r, Floor(now, retentionDays)) <==>
            forall steps :: OnTime(steps, now) ==> RangeTotals(RunStore(steps, retentionDays), Query(r)) == RangeTotals(RunLog(steps), Query(r))
  {
    var r := ResolveWindow(window, start, end, retentionDays, now).value;
    if AsksForKept(r, Floor(now, retentionDays)) {
      forall steps | OnTime(steps, now)
        ensures RangeTotals(RunStore(steps, retentionDays), Query(r)) == RangeTotals(RunLog(steps), Query(r))
      {
        AcceptedWindowsAreWhole(steps, window, start, end, retentionDays, now);
      }
    } else {
      var row := BlankRow(Query(r).start);
      var steps := [Written(row), Pruned(now)];
      WrittenThenPruned(row, now, retentionDays);
      OneWithin(row, Query(r));
      assert OnTime(steps, now);
      assert RangeTotals(RunStore(steps, retentionDays), Query(r)) != RangeTotals(RunLog(steps), Query(r));
    }
  }

  /**
   * An accepted window that a prune shortens: at five in the morning of the first of October
   * 2027, keeping a year, a start at one o'clock five hours west of UTC a year before is within
   * the retention, its text selects a row of two o'clock UTC, and the prune deletes that row.
   */
  lemma OffsetWindowLosesARow() returns (start: Bound, now: int, steps: seq<StoreStep>)
    ensures start.Instant? && steps != [] && steps[0].Written?
    ensures var bound, ts := start.moment, steps[0].row.ts;
            && bound.offset == -5 * HOUR_US && Representable(bound.us + bound.offset) && Representable(ts)
            && StringLeq(BoundText(bound), Iso(StampOf(ts)))
    ensures ResolveWindow(None, Some(start), None, 365, now).Ok? && OnTime(steps, now)
    ensures var w := Query(ResolveWindow(None, Some(start), None, 365, now).value);
            RangeTotals(RunLog(steps), w).requests == 1 && RangeTotals(RunStore(steps, 365), w).requests == 0
  {
    hide ResolveWindow, RunStore, RunLog, RangeTotals, Within, Representable, BoundText, Iso, StampOf, StringLeq;
    now := 740_254 * DAY_US + 5 * HOUR_US;
    var lastYear := 739_889 * DAY_US;
    start := Instant(Moment(lastYear + 6 * HOUR_US, -5 * HOUR_US));
    var row := BlankRow(lastYear + 2 * HOUR_US);
    steps := [Written(row), Pruned(now)];
    ResolvedStart(start, now);
    EarlyRepresentable(start.moment.us + start.moment.offset);
    EarlyRepresentable(row.ts);
    BoundCovers(start.moment, row.ts);
    WrittenThenPruned(row, now, 365);
    OneWithin(row, Query(ResolveWindow(None, Some(start), None, 365, now).value));
  }

  lemma ResolvedStart(start: Bound, now: int)
    requires start.Instant? && Floor(now, 365) <= start.moment.us < now
    ensures ResolveWindow(None, Some(start), None, 365, now).Ok?
    ensures Query(ResolveWindow(None, Some(start), None, 365, now).value) == Window(FirstCovered(start.moment), None)
  {
  }
}
