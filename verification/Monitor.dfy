/**
 * Request accounting: the monitor's counters and in-flight records, and the
 * tracker that finishes every routed request once.
 */
module RequestMonitor {
  import opened Common
  import opened Counters
  import opened Json
  import opened RequestLog
  import opened UsageScanning

  const STREAM_NOT_STARTED := "StreamNotStarted"
  const MESSAGES := "messages"

  datatype Active = Active(id: nat, model: string, provider: string, endpoint: string, started: real)

  /** How a request ended, and what was read of it. */
  datatype Outcome = Outcome(
    status: Option<int>,
    error: Option<string>,
    rejected: Option<string>,
    usage: Usage,
    cost: Option<real>,
    ttft: Option<real>)

  predicate Failed(o: Outcome) {
    o.error.Some? || (o.status.Some? && o.status.value >= 400 && o.rejected.None?)
  }

  function StatsOf(o: Outcome, duration: real): Stats {
    Stats(1, if Failed(o) then 1 else 0, if o.cost.Some? then 1 else 0, duration, o.usage, o.cost.GetOr(0.0))
  }

  // ----- tables by name, in order of first use

  datatype Named = Named(name: string, stats: Stats)

  function PlaceOf(table: seq<Named>, name: string): (p: nat)
    ensures p <= |table| && (p < |table| ==> table[p].name == name)
    ensures forall q :: 0 <= q < p ==> table[q].name != name
  {
    if table == [] then 0
    else
      var p := PlaceOf(table[..|table| - 1], name);
      if p < |table| - 1 || table[p].name == name then p else |table|
  }

  function Recorded(table: seq<Named>, name: string, more: Stats): seq<Named> {
    var p := PlaceOf(table, name);
    if p < |table| then table[p := Named(name, table[p].stats.Plus(more))] else table + [Named(name, NO_STATS.Plus(more))]
  }

  function Lookup(table: seq<Named>, name: string): Stats {
    var p := PlaceOf(table, name);
    if p < |table| then table[p].stats else NO_STATS
  }

  function TableStats(table: seq<Named>): seq<Stats> {
    seq(|table|, i requires 0 <= i < |table| => table[i].stats)
  }

  // ----- the books

  datatype Books = Books(
    totals: Stats,
    providers: seq<Named>,
    models: seq<Named>,
    modelProvider: map<string, string>,
    active: map<nat, Active>,
    nextId: nat)

  const NEW_BOOKS := Books(NO_STATS, [], [], map[], map[], 1)

  function Started(b: Books, model: string, provider: string, endpoint: string, now: real): (Books, Active) {
    var active := Active(b.nextId, model, provider, endpoint, now);
    (b.(active := b.active[b.nextId := active], nextId := b.nextId + 1), active)
  }

  function Finished(b: Books, active: Active, o: Outcome, duration: real): Books {
    var more := StatsOf(o, duration);
    b.(totals := b.totals.Plus(more),
       providers := Recorded(b.providers, active.provider, more),
       models := Recorded(b.models, active.model, more),
       modelProvider := b.modelProvider[active.model := active.provider],
       active := b.active - {active.id})
  }

  /** What is rounded before it is stored. */
  datatype Rounding = Rounding(duration: real -> real, cost: real -> real)

  function RowOf(rounding: Rounding, active: Active, stream: bool, o: Outcome, duration: real, ts: int): (row: Row)
    ensures row.ts == ts && row.endpoint == Some(active.endpoint) && row.model == Some(active.model) && row.provider == Some(active.provider)
    ensures row.status == o.status && row.error == o.error && row.rejected == o.rejected && (row.stream == Some(1) <==> stream)
    ensures row.tokens.input == Some(o.usage.input) && row.tokens.output == Some(o.usage.output)
    ensures row.tokens.cacheWrite == Some(o.usage.cacheCreation) && row.tokens.cacheRead == Some(o.usage.cacheRead)
    ensures row.duration == Some(rounding.duration(duration))
    ensures o.cost.Some? ==> row.cost == Some(rounding.cost(o.cost.value))
    ensures o.ttft.Some? ==> row.ttft == Some(rounding.duration(o.ttft.value))
    ensures (row.cost.None? <==> o.cost.None?) && (row.ttft.None? <==> o.ttft.None?) && (row.stream == Some(0) <==> !stream)
  {
    Row(ts, Some(active.endpoint), Some(active.model), Some(active.provider), o.status, o.error,
        Some(if stream then 1 else 0), o.rejected, Some(rounding.duration(duration)),
        Tokens(Some(o.usage.input), Some(o.usage.output), Some(o.usage.cacheCreation), Some(o.usage.cacheRead)),
        if o.cost.Some? then Some(rounding.cost(o.cost.value)) else None,
        if o.ttft.Some? then Some(rounding.duration(o.ttft.value)) else None)
  }

  /** The feed with one more entry: the oldest goes once there are more than the buffer holds. */
  function Fed(feed: seq<Row>, buffer: nat, entry: Row): seq<Row> {
    var longer := feed + [entry];
    if |longer| > buffer then longer[|longer| - buffer..] else longer
  }

  /** The feed is what the log ends with. */
  predicate IsFeed(feed: seq<Row>, buffer: nat, log: seq<Row>) {
    |feed| <= buffer && |feed| <= |log| && feed == log[|log| - |feed|..] && (|feed| < buffer ==> feed == log)
  }

  /** Of the entries ever fed, the feed keeps the newest ones, as many as the buffer holds. */
  lemma FedIsNewest(feed: seq<Row>, buffer: nat, log: seq<Row>, entry: Row)
    requires IsFeed(feed, buffer, log)
    ensures IsFeed(Fed(feed, buffer, entry), buffer, log + [entry])
  {
    var longer, all := feed + [entry], log + [entry];
    assert longer == all[|all| - |longer|..];
  }

  class Monitor {
    const rounding: Rounding
    const store: RequestStore?
    const buffer: nat
    var events: seq<Row>
    var modelProvider: map<string, string>
    var totals: Stats
    var providers: seq<Named>
    var models: seq<Named>
    var active: map<nat, Active>
    var nextId: nat

    constructor (rounding: Rounding, store: RequestStore?, buffer: nat)
      ensures this.rounding == rounding && this.store == store && this.buffer == buffer
      ensures View() == NEW_BOOKS && events == []
    {
      this.rounding := rounding;
      this.store := store;
      this.buffer := buffer;
      totals, providers, models, active, nextId := NO_STATS, [], [], map[], 1;
      modelProvider, events := map[], [];
    }

    function View(): Books
      reads this
    {
      Books(totals, providers, models, modelProvider, active, nextId)
    }

    ghost predicate Valid()
      reads this, store
    {
      store != null ==> store.Valid()
    }

    method StartRequest(model: string, provider: string, endpoint: string, now: real) returns (record: Active)
      requires Valid()
      modifies this
      ensures Valid() && (View(), record) == Started(old(View()), model, provider, endpoint, now) && events == old(events)
      ensures record == Active(old(nextId), model, provider, endpoint, now) && nextId == old(nextId) + 1
      ensures active == old(active)[record.id := record] && totals == old(totals)
    {
      record := Active(nextId, model, provider, endpoint, now);
      nextId := nextId + 1;
      active := active[record.id := record];
    }

    /** From in flight to the counters and the feed, and one row into the store when there is one. */
    method FinishRequest(record: Active, stream: bool, o: Outcome, now: real, ts: int)
      requires Valid()
      modifies this, store
      ensures Valid() && View() == Finished(old(View()), record, o, (now - record.started) * 1000.0)
      ensures events == Fed(old(events), buffer, RowOf(rounding, record, stream, o, (now - record.started) * 1000.0, ts))
      ensures store != null ==>
                store.log == old(store.log) + [RowOf(rounding, record, stream, o, (now - record.started) * 1000.0, ts)]
    {
      hide Recorded, Stats.Plus, StatsOf, Fed, RowOf;
      active := active - {record.id};
      var duration := (now - record.started) * 1000.0;
      var more := StatsOf(o, duration);
      totals := totals.Plus(more);
      providers := Recorded(providers, record.provider, more);
      models := Recorded(models, record.model, more);
      modelProvider := modelProvider[record.model := record.provider];
      var entry := RowOf(rounding, record, stream, o, duration, ts);
      events := Fed(events, buffer, entry);
      if store != null {
        store.Record(entry);
      }
    }
  }

  // ----- the tracker

  /** What a unary body's usage is read as. */
  function UsageOfBody(decode: Decoder, readable: bool, body: seq<byte>): (usage: Usage)
    ensures usage ==
            if readable && decode(body).Some? && decode(body).value.JObj? then
              var fields := decode(body).value.fields;
              if "usage" in fields && fields["usage"].JObj? then
                var counts := fields["usage"].fields;
                Usage(IntIn(counts, "input_tokens").GetOr(0), IntIn(counts, "output_tokens").GetOr(0),
                      IntIn(counts, "cache_creation_input_tokens").GetOr(0), IntIn(counts, "cache_read_input_tokens").GetOr(0))
              else Usage(0, 0, 0, 0)
            else Usage(0, 0, 0, 0)
  {
    if readable && decode(body).Some? && decode(body).value.JObj? then
      match FieldIn(decode(body).value, "usage") case Some(JObj(fields)) => CountsOf(fields) case _ => NO_USAGE
    else NO_USAGE
  }

  datatype Ending = Ended | Broke(error: string)

  class RequestTracker {
    const monitor: Monitor
    const record: Active
    const price: Option<Usage -> real>
    const decode: Decoder
    var stream: bool
    var scanner: UsageScanner?
    var done: bool

    constructor (monitor: Monitor, record: Active, price: Option<Usage -> real>, decode: Decoder)
      ensures this.monitor == monitor && this.record == record && this.price == price && this.decode == decode
      ensures !done && !stream && scanner == null
    {
      this.monitor := monitor;
      this.record := record;
      this.price := price;
      this.decode := decode;
      stream, scanner, done := false, null, false;
    }

    function Cost(usage: Usage): Option<real> {
      if price.Some? then Some(price.value(usage)) else None
    }

    /** The books after this tracker hands over an outcome: nothing happens the second time. */
    function Settled(b: Books, wasDone: bool, o: Outcome, now: real): (after: Books)
      ensures wasDone ==> after == b
      ensures !wasDone ==>
                && after.totals.requests == b.totals.requests + 1 && record.id !in after.active
                && after.totals.duration == b.totals.duration + 1000.0 * (now - record.started)
                && after.totals.usage.input == b.totals.usage.input + o.usage.input
                && after.totals.usage.output == b.totals.usage.output + o.usage.output
    {
      if wasDone then b else Finished(b, record, o, (now - record.started) * 1000.0)
    }

    function Ttft(reading: Reading): (ms: Option<real>)
      ensures ms.Some? <==> reading.firstDelta.Some? && record.endpoint == "messages"
      ensures ms.Some? ==> record.started + ms.value / 1000.0 == reading.firstDelta.value
    {
      if reading.firstDelta.None? || record.endpoint != MESSAGES then None
      else Some((reading.firstDelta.value - record.started) * 1000.0)
    }

    function OutcomeOf(status: Option<int>, error: Option<string>, rejected: Option<string>, reading: Reading): (o: Outcome)
      ensures o.status == status && o.error == error && o.rejected == rejected && o.usage == reading.usage
      ensures (o.cost.Some? <==> price.Some?) && (o.cost.Some? ==> o.cost.value == price.value(reading.usage))
      ensures o.ttft.Some? <==> reading.firstDelta.Some? && record.endpoint == "messages"
      ensures o.ttft.Some? ==> record.started + o.ttft.value / 1000.0 == reading.firstDelta.value
    {
      Outcome(status, error, rejected, reading.usage, Cost(reading.usage), Ttft(reading))
    }

    /** What has been read so far: nothing before there is a scanner. */
    function Read(): Reading
      reads this, scanner
    {
      if scanner == null then NOTHING_READ else scanner.View().reading
    }

    method Finish(status: Option<int>, error: Option<string>, rejected: Option<string>, now: real, ts: int)
      requires monitor.Valid()
      modifies `done, monitor, monitor.store
      ensures monitor.Valid() && done
      ensures monitor.View() == Settled(old(monitor.View()), old(done), OutcomeOf(status, error, rejected, old(Read())), now)
      ensures monitor.store != null ==>
                monitor.store.log == old(monitor.store.log) +
                (if old(done) then []
                 else [RowOf(monitor.rounding, record, stream, OutcomeOf(status, error, rejected, old(Read())),
                             (now - record.started) * 1000.0, ts)])
    {
      hide Finished, Fed, RowOf;
      if done {
        return;
      }
      done := true;
      var usage := if scanner != null then scanner.usage else NO_USAGE;
      var firstDelta := if scanner != null then scanner.firstDelta else None;
      var reading := Reading(usage, firstDelta);
      monitor.FinishRequest(record, stream, Outcome(status, error, rejected, usage, Cost(usage), Ttft(reading)), now, ts);
    }

    method Fail(error: string, now: real, ts: int)
      requires monitor.Valid()
      modifies `done, monitor, monitor.store
      ensures monitor.Valid() && done
      ensures monitor.View() == Settled(old(monitor.View()), old(done), OutcomeOf(None, Some(error), None, old(Read())), now)
    {
      Finish(None, Some(error), None, now, ts);
    }

    /** A complete body: read and finished on the spot. */
    method AttachBody(body: seq<byte>, readable: bool, status: int, rejected: Option<string>, now: real, ts: int)
      requires monitor.Valid()
      modifies this, monitor, monitor.store
      ensures monitor.Valid() && done
      ensures var usage := if record.endpoint == MESSAGES then UsageOfBody(decode, readable, body) else NO_USAGE;
              monitor.View() == Settled(old(monitor.View()), old(done),
                                        Outcome(Some(status), None, rejected, usage, Cost(usage), None), now)
    {
      var s := new UsageScanner(decode, readable);
      if record.endpoint == MESSAGES {
        s.FeedJson(body);
      }
      scanner := s;
      Finish(Some(status), None, rejected, now, ts);
    }

    method AttachStream(readable: bool)
      modifies this
      ensures stream && done == old(done) && scanner != null && fresh(scanner)
      ensures scanner.decode == decode && scanner.readable == readable && scanner.View() == Scan(NOTHING_READ, [])
    {
      stream := true;
      scanner := new UsageScanner(decode, readable);
    }

    /** The wrapped stream as far as it was taken: the same chunks, read on the way, then one end. */
    method Wrap(body: seq<Chunk>, ending: Ending, status: int, now: real, ts: int) returns (relayed: seq<Chunk>)
      requires monitor.Valid() && scanner != null && scanner.View() == Scan(NOTHING_READ, [])
      modifies this, scanner, monitor, monitor.store
      ensures monitor.Valid() && done && relayed == body
      ensures var reading := if old(scanner.readable) then FeedAll(old(scanner.decode), body).reading else NOTHING_READ;
              var error := if ending.Broke? then Some(ending.error) else None;
              monitor.View() == Settled(old(monitor.View()), old(done), OutcomeOf(Some(status), error, None, reading), now)
    {
      relayed := [];
      var i := 0;
      while i < |body|
        invariant 0 <= i <= |body| && relayed == body[..i]
        invariant scanner == old(scanner) && done == old(done)
        invariant scanner.View() == if scanner.readable then FeedAll(scanner.decode, body[..i]) else Scan(NOTHING_READ, [])
        modifies scanner
      {
        assert body[..i + 1][..i] == body[..i];
        scanner.FeedSse(body[i].bytes, body[i].at);
        relayed := relayed + [body[i]];
        i := i + 1;
      }
      assert body[..i] == body;
      match ending
      case Ended => Finish(Some(status), None, None, now, ts);
      case Broke(error) => Finish(Some(status), Some(error), None, now, ts);
    }

    /** Releasing the provider's stream: an error only when nothing finished the request before. */
    method Release(status: int, now: real, ts: int)
      requires monitor.Valid()
      modifies `done, monitor, monitor.store
      ensures monitor.Valid() && done
      ensures monitor.View() ==
              Settled(old(monitor.View()), old(done), OutcomeOf(Some(status), Some("StreamNotStarted"), None, old(Read())), now)
    {
      Finish(Some(status), Some(STREAM_NOT_STARTED), None, now, ts);
    }
  }
}
