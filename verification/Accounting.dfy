/**
 * The accounts over every run: requests start, and are attached, fail, end,
 * break off and are released in any order and any number of times.
 */
module Accounting {
  import opened Common
  import opened Counters
  import opened RequestLog
  import opened RequestMonitor
  import opened StoreWindows

  datatype Tracked = Tracked(active: Active, stream: bool, done: bool)

  /** The monitor's books, the trackers handed out, the stored rows, and who was counted. */
  datatype Desk = Desk(books: Books, trackers: map<nat, Tracked>, rows: seq<Row>, counted: seq<nat>)

  const NEW_DESK := Desk(NEW_BOOKS, map[], [], [])

  /** What was read of a response, and its price. */
  datatype Reckoning = Reckoning(usage: Usage, cost: Option<real>, ttft: Option<real>)

  datatype Event =
    | Start(model: string, provider: string, endpoint: string, now: real)
    | AttachBody(id: nat, status: int, rejected: Option<string>, read: Reckoning, now: real, ts: int)
    | AttachStream(id: nat)
    | Fail(id: nat, error: string, read: Reckoning, now: real, ts: int)
    | StreamEnd(id: nat, status: int, read: Reckoning, now: real, ts: int)
    | StreamBreak(id: nat, status: int, error: string, read: Reckoning, now: real, ts: int)
    | Release(id: nat, status: int, read: Reckoning, now: real, ts: int)

  predicate Known(desk: Desk, event: Event) {
    event.Start? || event.id in desk.trackers
  }

  function Reckoned(status: Option<int>, error: Option<string>, rejected: Option<string>, read: Reckoning): Outcome {
    Outcome(status, error, rejected, read.usage, read.cost, read.ttft)
  }

  /** The outcome an event hands over; starting and attaching a stream hand over none. */
  function Handed(event: Event): Option<Outcome> {
    match event
    case AttachBody(_, status, rejected, read, _, _) => Some(Reckoned(Some(status), None, rejected, read))
    case Fail(_, error, read, _, _) => Some(Reckoned(None, Some(error), None, read))
    case StreamEnd(_, status, read, _, _) => Some(Reckoned(Some(status), None, None, read))
    case StreamBreak(_, status, error, read, _, _) => Some(Reckoned(Some(status), Some(error), None, read))
    case Release(_, status, read, _, _) => Some(Reckoned(Some(status), Some(STREAM_NOT_STARTED), None, read))
    case _ => None
  }

  /** A tracker hands an outcome to the monitor: once. */
  function Settle(rounding: Rounding, desk: Desk, id: nat, o: Outcome, now: real, ts: int): Desk
    requires id in desk.trackers
  {
    var t := desk.trackers[id];
    if t.done then desk
    else
      var duration := (now - t.active.started) * 1000.0;
      Desk(Finished(desk.books, t.active, o, duration), desk.trackers[id := t.(done := true)],
           desk.rows + [RowOf(rounding, t.active, t.stream, o, duration, ts)], desk.counted + [id])
  }

  function Open(desk: Desk, model: string, provider: string, endpoint: string, now: real): Desk {
    var (books, active) := Started(desk.books, model, provider, endpoint, now);
    desk.(books := books, trackers := desk.trackers[active.id := Tracked(active, false, false)])
  }

  function After(rounding: Rounding, desk: Desk, event: Event): Desk
    requires Known(desk, event)
  {
    match event
    case Start(model, provider, endpoint, now) => Open(desk, model, provider, endpoint, now)
    case AttachStream(id) => desk.(trackers := desk.trackers[id := desk.trackers[id].(stream := true)])
    case _ => Settle(rounding, desk, event.id, Handed(event).value, event.now, event.ts)
  }

  /** Counts and tokens: what is stored as it was counted. */
  function Counted(stats: Stats): Stats {
    stats.(duration := 0.0, cost := 0.0)
  }

  // ----- tables

  lemma LookupRecorded(table: seq<Named>, name: string, more: Stats, other: string)
    ensures Lookup(Recorded(table, name, more), other) ==
            if other == name then Lookup(table, name).Plus(more) else Lookup(table, other)
  {
    var p, after := PlaceOf(table, name), Recorded(table, name, more);
    var q, r := PlaceOf(table, other), PlaceOf(after, other);
    assert forall k :: 0 <= k < |table| ==> after[k].name == table[k].name;
    if q < |table| {
      SamePlace(after, other, q, r);
    } else if other == name {
      SamePlace(after, other, |table|, r);
    }
  }

  /** The first place of a name is one place. */
  lemma SamePlace(table: seq<Named>, name: string, p: nat, q: nat)
    requires p < |table| && table[p].name == name && forall k :: 0 <= k < p ==> table[k].name != name
    requires q == PlaceOf(table, name)
    ensures p == q
  {
  }

  lemma RecordedSum(table: seq<Named>, name: string, more: Stats)
    ensures Sum(TableStats(Recorded(table, name, more))) == Sum(TableStats(table)).Plus(more)
  {
    hide Stats.Plus, NO_STATS;
    var p := PlaceOf(table, name);
    var before, after := TableStats(table), TableStats(Recorded(table, name, more));
    if p < |table| {
      assert after == before[p := before[p].Plus(more)];
      SumUpdate(before, p, more);
    } else {
      assert after == before + [NO_STATS.Plus(more)];
      SumPush(before, NO_STATS.Plus(more));
      NothingFirst(Sum(before), more);
    }
  }

  lemma NothingFirst(a: Stats, more: Stats)
    ensures a.Plus(NO_STATS.Plus(more)) == a.Plus(more)
  {
    PlusAssociative(a, NO_STATS, more);
    NothingAdds(a);
  }

  /** What one outcome adds to a bucket: a request, an error when it failed and was not rejected on purpose, its tokens, its price. */
  predicate Adds(after: Stats, before: Stats, o: Outcome, duration: real) {
    && after.requests == before.requests + 1
    && after.errors == before.errors +
         (if o.error.Some? then 1 else if o.status.Some? && o.status.value > 399 && o.rejected == None then 1 else 0)
    && after.duration == before.duration + duration
    && after.usage.input == before.usage.input + o.usage.input && after.usage.output == before.usage.output + o.usage.output
    && after.usage.cacheCreation == before.usage.cacheCreation + o.usage.cacheCreation
    && after.usage.cacheRead == before.usage.cacheRead + o.usage.cacheRead
    && (match o.cost
        case Some(cost) => after.priced == before.priced + 1 && after.cost == before.cost + cost
        case None => after.priced == before.priced && after.cost == before.cost)
  }

  /** Finishing adds the outcome to the totals, the provider and the model of the request, and to no other. */
  lemma FinishingCounts(b: Books, active: Active, o: Outcome, duration: real)
    ensures var after := Finished(b, active, o, duration);
            && Adds(after.totals, b.totals, o, duration)
            && Adds(Lookup(after.providers, active.provider), Lookup(b.providers, active.provider), o, duration)
            && Adds(Lookup(after.models, active.model), Lookup(b.models, active.model), o, duration)
            && (forall name :: name != active.provider ==> Lookup(after.providers, name) == Lookup(b.providers, name))
            && (forall name :: name != active.model ==> Lookup(after.models, name) == Lookup(b.models, name))
            && after.modelProvider == b.modelProvider[active.model := active.provider]
            && after.active == b.active - {active.id} && after.nextId == b.nextId
  {
    hide PlaceOf, Recorded, Lookup;
    var more := StatsOf(o, duration);
    LookupRecorded(b.providers, active.provider, more, active.provider);
    LookupRecorded(b.models, active.model, more, active.model);
    forall name | name != active.provider ensures Lookup(Recorded(b.providers, active.provider, more), name) == Lookup(b.providers, name) {
      LookupRecorded(b.providers, active.provider, more, name);
    }
    forall name | name != active.model ensures Lookup(Recorded(b.models, active.model, more), name) == Lookup(b.models, name) {
      LookupRecorded(b.models, active.model, more, name);
    }
  }

  /** A request starts in flight under the next id, as it was asked for, with a tracker that has neither stream nor end. */
  lemma StartingOpens(rounding: Rounding, desk: Desk, event: Event)
    requires event.Start?
    ensures var after, id := After(rounding, desk, event), desk.books.nextId;
            && after.trackers.Keys == desk.trackers.Keys + {id} && after.books.active.Keys == desk.books.active.Keys + {id}
            && after.books.nextId == id + 1 && !after.trackers[id].stream && !after.trackers[id].done
            && after.books.active[id] == after.trackers[id].active
            && after.rows == desk.rows && after.books.totals == desk.books.totals
            && var active := after.trackers[id].active;
               && active.model == event.model && active.provider == event.provider && active.endpoint == event.endpoint
               && active.id == id && active.started == event.now
  {
  }

  /** Attaching a stream marks the tracker as streaming, and nothing else changes. */
  lemma AttachingStreams(rounding: Rounding, desk: Desk, event: Event)
    requires event.AttachStream? && Known(desk, event)
    ensures var after, id := After(rounding, desk, event), event.id;
            && after.trackers.Keys == desk.trackers.Keys && after.trackers[id].stream
            && after.trackers[id].active == desk.trackers[id].active && after.trackers[id].done == desk.trackers[id].done
            && (forall other :: other in desk.trackers && other != id ==> after.trackers[other] == desk.trackers[other])
            && after.books == desk.books && after.rows == desk.rows && after.counted == desk.counted
  {
  }

  /** The one row a request leaves says what it was asked for and how it ended. */
  lemma EndingLeavesARow(rounding: Rounding, desk: Desk, event: Event)
    requires Known(desk, event) && !event.Start? && !event.AttachStream? && !desk.trackers[event.id].done
    ensures var after, t, n := After(rounding, desk, event), desk.trackers[event.id], |desk.rows|;
            && after.trackers[event.id].done && |after.rows| == n + 1 && after.rows[..n] == desk.rows
            && var row := after.rows[n];
               && row.ts == event.ts && row.stream == Some(if t.stream then 1 else 0)
               && row.endpoint == Some(t.active.endpoint) && row.model == Some(t.active.model) && row.provider == Some(t.active.provider)
               && row.duration == Some(rounding.duration(1000.0 * (event.now - t.active.started)))
               && row.tokens.input == Some(event.read.usage.input) && row.tokens.output == Some(event.read.usage.output)
               && row.cost == (match event.read.cost case Some(cost) => Some(rounding.cost(cost)) case None => None)
               && row.ttft == (match event.read.ttft case Some(ttft) => Some(rounding.duration(ttft)) case None => None)
               && row.status == (if event.Fail? then None else Some(event.status))
               && row.rejected == (if event.AttachBody? then event.rejected else None)
               && row.error == (if event.Release? then Some("StreamNotStarted")
                                else if event.Fail? || event.StreamBreak? then Some(event.error) else None)
  {
    hide Finished;
  }

  /** What that row says is what the totals grow by. */
  lemma EndingAdds(rounding: Rounding, desk: Desk, event: Event)
    requires Known(desk, event) && !event.Start? && !event.AttachStream? && !desk.trackers[event.id].done
    ensures var o := Handed(event).value;
            && Adds(After(rounding, desk, event).books.totals, desk.books.totals, o,
                    1000.0 * (event.now - desk.trackers[event.id].active.started))
            && o.usage == event.read.usage && o.cost == event.read.cost && o.status == (if event.Fail? then None else Some(event.status))
            && o.rejected == (if event.AttachBody? then event.rejected else None)
            && (o.error.Some? <==> event.Release? || event.Fail? || event.StreamBreak?)
  {
    hide Finished, Adds, RowOf;
    var t := desk.trackers[event.id];
    FinishingCounts(desk.books, t.active, Handed(event).value, (event.now - t.active.started) * 1000.0);
  }

  // ----- the invariant

  /** In flight are the trackers that are not done; the ids handed out are 1 and up. */
  ghost predicate InFlightOk(desk: Desk) {
    && (forall id :: id in desk.trackers <==> 0 < id < desk.books.nextId)
    && (forall id :: id in desk.trackers ==> desk.trackers[id].active.id == id)
    && (forall id :: id in desk.books.active <==> id in desk.trackers && !desk.trackers[id].done)
    && |desk.books.active| + |desk.counted| + 1 == desk.books.nextId
  }

  /** Each request is counted at most once, when it is done. */
  ghost predicate CountedOnce(desk: Desk) {
    && (forall i, j :: 0 <= i < j < |desk.counted| ==> desk.counted[i] != desk.counted[j])
    && (forall id :: id in desk.counted <==> id in desk.trackers && desk.trackers[id].done)
    && |desk.counted| == |desk.rows| == desk.books.totals.requests
  }

  predicate TablesBalance(b: Books) {
    Sum(TableStats(b.providers)) == b.totals && Sum(TableStats(b.models)) == b.totals
  }

  function ProviderIs(name: string): Row -> bool {
    (row: Row) => row.provider == Some(name)
  }

  function ModelIs(name: string): Row -> bool {
    (row: Row) => row.model == Some(name)
  }

  /** The stored rows count what the monitor counted, in all and under every name. */
  ghost predicate StoreAgrees(b: Books, rows: seq<Row>) {
    && Counted(b.totals) == Counted(TotalsOf(rows))
    && (forall name :: Counted(Lookup(b.providers, name)) == Counted(TotalsOf(Only(rows, ProviderIs(name)))))
    && (forall name :: Counted(Lookup(b.models, name)) == Counted(TotalsOf(Only(rows, ModelIs(name)))))
  }

  ghost predicate Inv(desk: Desk) {
    InFlightOk(desk) && CountedOnce(desk) && TablesBalance(desk.books) && StoreAgrees(desk.books, desk.rows)
  }

  lemma NewDeskInv()
    ensures Inv(NEW_DESK)
  {
    assert TableStats([]) == [];
  }

  lemma CountedPlus(a: Stats, b: Stats, more: Stats, stored: Stats)
    requires Counted(a) == Counted(b) && Counted(more) == Counted(stored)
    ensures Counted(a.Plus(more)) == Counted(b.Plus(stored))
  {
  }

  lemma RowCounts(rounding: Rounding, active: Active, stream: bool, o: Outcome, duration: real, ts: int)
    ensures Counted(RowStats(RowOf(rounding, active, stream, o, duration, ts))) == Counted(StatsOf(o, duration))
  {
  }

  lemma FinishedAgrees(rounding: Rounding, b: Books, rows: seq<Row>, active: Active, stream: bool, o: Outcome, duration: real, ts: int)
    requires StoreAgrees(b, rows)
    ensures StoreAgrees(Finished(b, active, o, duration), rows + [RowOf(rounding, active, stream, o, duration, ts)])
  {
    hide Stats.Plus, NO_STATS, RowStats, StatsOf, Counted, TotalsOf, Only, Lookup, Recorded;
    var row, more := RowOf(rounding, active, stream, o, duration, ts), StatsOf(o, duration);
    RowCounts(rounding, active, stream, o, duration, ts);
    TotalsPush(rows, row);
    CountedPlus(b.totals, TotalsOf(rows), more, RowStats(row));
    forall name
      ensures Counted(Lookup(Recorded(b.providers, active.provider, more), name)) == Counted(TotalsOf(Only(rows + [row], ProviderIs(name))))
    {
      LookupRecorded(b.providers, active.provider, more, name);
      OnlyTotals(rows, row, ProviderIs(name));
      CountedPlus(Lookup(b.providers, name), TotalsOf(Only(rows, ProviderIs(name))), more, RowStats(row));
    }
    forall name
      ensures Counted(Lookup(Recorded(b.models, active.model, more), name)) == Counted(TotalsOf(Only(rows + [row], ModelIs(name))))
    {
      LookupRecorded(b.models, active.model, more, name);
      OnlyTotals(rows, row, ModelIs(name));
      CountedPlus(Lookup(b.models, name), TotalsOf(Only(rows, ModelIs(name))), more, RowStats(row));
    }
  }

  lemma SettleInFlight(rounding: Rounding, desk: Desk, id: nat, o: Outcome, now: real, ts: int)
    requires InFlightOk(desk) && id in desk.trackers && !desk.trackers[id].done
    ensures InFlightOk(Settle(rounding, desk, id, o, now, ts))
  {
    hide Stats.Plus, Recorded, RowOf, StatsOf;
    assert id in desk.books.active;
    assert (desk.books.active - {id}).Keys == desk.books.active.Keys - {id};
  }

  lemma SettleCounts(rounding: Rounding, desk: Desk, id: nat, o: Outcome, now: real, ts: int)
    requires CountedOnce(desk) && id in desk.trackers && !desk.trackers[id].done
    ensures CountedOnce(Settle(rounding, desk, id, o, now, ts))
  {
    hide Recorded, RowOf;
    assert id !in desk.counted;
  }

  lemma SettleTables(b: Books, active: Active, o: Outcome, duration: real)
    requires TablesBalance(b)
    ensures TablesBalance(Finished(b, active, o, duration))
  {
    hide Stats.Plus, Recorded, StatsOf, Sum;
    RecordedSum(b.providers, active.provider, StatsOf(o, duration));
    RecordedSum(b.models, active.model, StatsOf(o, duration));
  }

  lemma SettleKeepsInv(rounding: Rounding, desk: Desk, id: nat, o: Outcome, now: real, ts: int)
    requires Inv(desk) && id in desk.trackers
    ensures Inv(Settle(rounding, desk, id, o, now, ts))
  {
    hide InFlightOk, CountedOnce, TablesBalance, StoreAgrees, Finished, RowOf;
    var t := desk.trackers[id];
    if !t.done {
      var duration := (now - t.active.started) * 1000.0;
      SettleInFlight(rounding, desk, id, o, now, ts);
      SettleCounts(rounding, desk, id, o, now, ts);
      SettleTables(desk.books, t.active, o, duration);
      FinishedAgrees(rounding, desk.books, desk.rows, t.active, t.stream, o, duration, ts);
    }
  }

  lemma OneMore(active: map<nat, Active>, id: nat, record: Active)
    requires id !in active
    ensures |active[id := record]| == |active| + 1
  {
    assert active[id := record].Keys == active.Keys + {id};
  }

  lemma OpenInFlight(desk: Desk, model: string, provider: string, endpoint: string, now: real)
    requires InFlightOk(desk)
    ensures InFlightOk(Open(desk, model, provider, endpoint, now))
  {
    var id := desk.books.nextId;
    assert id !in desk.trackers && id !in desk.books.active;
    OneMore(desk.books.active, id, Active(id, model, provider, endpoint, now));
  }

  lemma OpenCounts(desk: Desk, model: string, provider: string, endpoint: string, now: real)
    requires InFlightOk(desk) && CountedOnce(desk)
    ensures CountedOnce(Open(desk, model, provider, endpoint, now))
  {
    assert desk.books.nextId !in desk.trackers;
  }

  lemma OpenKeepsInv(desk: Desk, model: string, provider: string, endpoint: string, now: real)
    requires Inv(desk)
    ensures Inv(Open(desk, model, provider, endpoint, now))
  {
    hide InFlightOk, CountedOnce, TablesBalance, StoreAgrees;
    OpenInFlight(desk, model, provider, endpoint, now);
    OpenCounts(desk, model, provider, endpoint, now);
    SameTables(desk.books, Open(desk, model, provider, endpoint, now).books, desk.rows);
  }

  lemma StreamKeepsInv(desk: Desk, id: nat)
    requires Inv(desk) && id in desk.trackers
    ensures Inv(desk.(trackers := desk.trackers[id := desk.trackers[id].(stream := true)]))
  {
    hide TablesBalance, StoreAgrees;
  }

  lemma SameTables(b: Books, b': Books, rows: seq<Row>)
    requires b'.totals == b.totals && b'.providers == b.providers && b'.models == b.models
    ensures TablesBalance(b') <==> TablesBalance(b)
    ensures StoreAgrees(b', rows) <==> StoreAgrees(b, rows)
  {
  }

  lemma AfterKeepsInv(rounding: Rounding, desk: Desk, event: Event)
    requires Inv(desk) && Known(desk, event)
    ensures Inv(After(rounding, desk, event))
  {
    hide Inv, Settle, Open;
    match event
    case Start(model, provider, endpoint, now) => OpenKeepsInv(desk, model, provider, endpoint, now);
    case AttachStream(id) => StreamKeepsInv(desk, id);
    case _ => SettleKeepsInv(rounding, desk, event.id, Handed(event).value, event.now, event.ts);
  }

  predicate IsRun(rounding: Rounding, desks: seq<Desk>, events: seq<Event>) {
    && |desks| == |events| + 1 && desks[0] == NEW_DESK
    && forall k :: 0 <= k < |events| ==> Known(desks[k], events[k]) && desks[k + 1] == After(rounding, desks[k], events[k])
  }

  function Starts(events: seq<Event>): nat {
    if events == [] then 0 else Starts(events[..|events| - 1]) + (if events[|events| - 1].Start? then 1 else 0)
  }

  lemma NextIdStep(rounding: Rounding, desk: Desk, event: Event)
    requires Known(desk, event)
    ensures After(rounding, desk, event).books.nextId == desk.books.nextId + (if event.Start? then 1 else 0)
  {
  }

  lemma {:induction false} RunInv(rounding: Rounding, desks: seq<Desk>, events: seq<Event>, n: nat)
    requires IsRun(rounding, desks, events) && n <= |events|
    ensures Inv(desks[n]) && desks[n].books.nextId == Starts(events[..n]) + 1
  {
    hide Inv, After;
    if n == 0 {
      NewDeskInv();
    } else {
      RunInv(rounding, desks, events, n - 1);
      AfterKeepsInv(rounding, desks[n - 1], events[n - 1]);
      NextIdStep(rounding, desks[n - 1], events[n - 1]);
      assert events[..n][..n - 1] == events[..n - 1];
    }
  }

  /**
   * At every moment of every run: what is finished and what is in flight add up to what was
   * started, no request is counted twice, the totals are the sums over providers and over
   * models, and the stored rows count the same.
   */
  lemma AccountsBalance(rounding: Rounding, desks: seq<Desk>, events: seq<Event>, n: nat)
    requires IsRun(rounding, desks, events) && n <= |events|
    ensures var desk := desks[n];
            && desk.books.totals.requests + |desk.books.active| == Starts(events[..n])
            && CountedOnce(desk) && TablesBalance(desk.books) && StoreAgrees(desk.books, desk.rows)
  {
    RunInv(rounding, desks, events, n);
  }

  /** What was once finished stays as it was counted, whatever else is called on its tracker. */
  lemma FinishedStays(rounding: Rounding, desk: Desk, event: Event)
    requires Known(desk, event) && !event.Start? && desk.trackers[event.id].done
    ensures var after := After(rounding, desk, event);
            after.books == desk.books && after.rows == desk.rows && after.counted == desk.counted
  {
  }
}
