/**
 * Reading the token usage of a response off its bytes, chunk by chunk.
 *
 * Bytes are decoded by `decode`, which stands for the strict JSON reading of a
 * line's payload; everything around it is modelled.
 */
module UsageScanning {
  import opened Common
  import opened Counters
  import opened Json
  import opened Text

  newtype byte = x: int | 0 <= x < 256

  const LINE_FEED: byte := 10
  const CARRIAGE_RETURN: byte := 13
  const DATA_PREFIX: seq<byte> := [100, 97, 116, 97, 58]
  const MONITOR_SSE_LINE_LIMIT := 0x100000

  // ----- lines

  /** The complete lines of the data, and what is left behind the last line feed. */
  function Split(data: seq<byte>): (seq<seq<byte>>, seq<byte>) {
    if data == [] then ([], [])
    else
      var (lines, rest) := Split(data[..|data| - 1]);
      if data[|data| - 1] == LINE_FEED then (lines + [rest], []) else (lines, rest + [data[|data| - 1]])
  }

  function StripReturns(line: seq<byte>): seq<byte> {
    if line != [] && line[|line| - 1] == CARRIAGE_RETURN then StripReturns(line[..|line| - 1]) else line
  }

  predicate IsByteSpace(b: byte) {
    b == 32 || 9 <= b <= 13
  }

  function StripBytesLeft(s: seq<byte>): seq<byte> {
    if s != [] && IsByteSpace(s[0]) then StripBytesLeft(s[1..]) else s
  }

  function StripBytes(s: seq<byte>): seq<byte> {
    StripBytesRight(StripBytesLeft(s))
  }

  function StripBytesRight(s: seq<byte>): seq<byte> {
    if s != [] && IsByteSpace(s[|s| - 1]) then StripBytesRight(s[..|s| - 1]) else s
  }

  // ----- payloads

  predicate AllDigits(text: string) {
    text != "" && forall i :: 0 <= i < |text| ==> '0' <= text[i] <= '9'
  }

  /** The integer a JSON value is, when it is one. */
  function IntOf(value: Json): Option<int> {
    match value
    case JNum(text) =>
      if AllDigits(text) then Some(ValueOf(text))
      else if text != "" && text[0] == '-' && AllDigits(text[1..]) then Some(0 - ValueOf(text[1..]))
      else None
    case _ => None
  }

  function Count(fields: map<string, Json>, name: string, current: int): int {
    if name in fields then IntOf(fields[name]).GetOr(current) else current
  }

  /** Counts present as integers overwrite, everything else stays. */
  function Update(usage: Usage, fields: map<string, Json>): Usage {
    Usage(Count(fields, "input_tokens", usage.input),
          Count(fields, "output_tokens", usage.output),
          Count(fields, "cache_creation_input_tokens", usage.cacheCreation),
          Count(fields, "cache_read_input_tokens", usage.cacheRead))
  }

  function FieldIn(value: Json, name: string): Option<Json> {
    if value.JObj? && name in value.fields then Some(value.fields[name]) else None
  }

  /** What the scanner has read so far. */
  datatype Reading = Reading(usage: Usage, firstDelta: Option<real>)

  const NOTHING_READ := Reading(NO_USAGE, None)

  function ReadPayload(reading: Reading, payload: Json, now: real): Reading {
    var kind := FieldIn(payload, "type");
    if kind == Some(JStr("content_block_delta")) then
      reading.(firstDelta := if reading.firstDelta.None? then Some(now) else reading.firstDelta)
    else
      var usage :=
        if kind == Some(JStr("message_start")) then
          match FieldIn(payload, "message") case Some(message) => FieldIn(message, "usage") case None => None
        else if kind == Some(JStr("message_delta")) then FieldIn(payload, "usage")
        else None;
      match usage
      case Some(JObj(fields)) => reading.(usage := Update(reading.usage, fields))
      case _ => reading
  }

  type Decoder = seq<byte> -> Option<Json>

  function ReadLine(decode: Decoder, reading: Reading, line: seq<byte>, now: real): Reading {
    var text := StripReturns(line);
    if !(DATA_PREFIX <= text) then reading
    else
      match decode(StripBytes(text[|DATA_PREFIX|..]))
      case Some(payload) => if payload.JObj? then ReadPayload(reading, payload, now) else reading
      case None => reading
  }

  function ReadLines(decode: Decoder, reading: Reading, lines: seq<seq<byte>>, now: real): Reading {
    if lines == [] then reading
    else ReadLine(decode, ReadLines(decode, reading, lines[..|lines| - 1], now), lines[|lines| - 1], now)
  }

  // ----- the scanner as a value

  datatype Scan = Scan(reading: Reading, pending: seq<byte>)

  function Feed(decode: Decoder, scan: Scan, chunk: seq<byte>, now: real): Scan {
    var (lines, rest) := Split(scan.pending + chunk);
    Scan(ReadLines(decode, scan.reading, lines, now), if |rest| > MONITOR_SSE_LINE_LIMIT then [] else rest)
  }

  class UsageScanner {
    const decode: Decoder
    const readable: bool
    var usage: Usage
    var firstDelta: Option<real>
    var pending: seq<byte>

    constructor (decode: Decoder, readable: bool)
      ensures this.decode == decode && this.readable == readable && View() == Scan(NOTHING_READ, [])
    {
      this.decode := decode;
      this.readable := readable;
      usage := NO_USAGE;
      firstDelta := None;
      pending := [];
    }

    function View(): Scan
      reads this
    {
      Scan(Reading(usage, firstDelta), pending)
    }

    /** A complete JSON body: its usage replaces what was read, anything else leaves it. */
    method FeedJson(body: seq<byte>)
      modifies this
      ensures firstDelta == old(firstDelta) && pending == old(pending)
      ensures usage ==
              if readable && decode(body).Some? && decode(body).value.JObj? then
                var fields := decode(body).value.fields;
                if "usage" in fields && fields["usage"].JObj? then CountsOf(fields["usage"].fields) else CountsOf(map[])
              else old(usage)
    {
      if readable {
        match decode(body) {
          case Some(JObj(fields)) =>
            usage := NO_USAGE;
            if "usage" in fields && fields["usage"].JObj? {
              usage := Update(usage, fields["usage"].fields);
            }
          case _ =>
        }
      }
    }

    method FeedSse(chunk: seq<byte>, now: real)
      modifies this
      ensures View() == if readable then Feed(decode, old(View()), chunk, now) else old(View())
    {
      if !readable {
        return;
      }
      var (lines, rest) := Split(pending + chunk);
      pending := if |rest| > MONITOR_SSE_LINE_LIMIT then [] else rest;
      ghost var reading := View().reading;
      var i := 0;
      while i < |lines|
        invariant 0 <= i <= |lines|
        invariant View().reading == ReadLines(decode, reading, lines[..i], now)
        invariant pending == if |rest| > MONITOR_SSE_LINE_LIMIT then [] else rest
      {
        assert lines[..i + 1][..i] == lines[..i];
        Line(lines[i], now);
        i := i + 1;
      }
      assert lines[..i] == lines;
    }

    method Line(line: seq<byte>, now: real)
      modifies this
      ensures View().reading == ReadLine(decode, old(View()).reading, line, now) && pending == old(pending)
    {
      var text := StripReturns(line);
      if !(DATA_PREFIX <= text) {
        return;
      }
      var decoded := decode(StripBytes(text[|DATA_PREFIX|..]));
      if decoded.None? || !decoded.value.JObj? {
        return;
      }
      var fields := decoded.value.fields;
      if "type" !in fields {
        return;
      }
      var counts: Option<Json> := None;
      if fields["type"] == JStr("content_block_delta") {
        if firstDelta.None? {
          firstDelta := Some(now);
        }
        return;
      } else if fields["type"] == JStr("message_start") {
        if "message" in fields {
          counts := FieldIn(fields["message"], "usage");
        }
      } else if fields["type"] == JStr("message_delta") {
        counts := FieldIn(decoded.value, "usage");
      } else {
        return;
      }
      if counts.Some? && counts.value.JObj? {
        usage := Update(usage, counts.value.fields);
      }
    }
  }

  // ----- what the lines say

  function IntIn(fields: map<string, Json>, name: string): Option<int> {
    if name in fields then IntOf(fields[name]) else None
  }

  /** The four counts of a usage object; what is no integer counts as zero. */
  function CountsOf(fields: map<string, Json>): Usage {
    Usage(IntIn(fields, "input_tokens").GetOr(0), IntIn(fields, "output_tokens").GetOr(0),
          IntIn(fields, "cache_creation_input_tokens").GetOr(0), IntIn(fields, "cache_read_input_tokens").GetOr(0))
  }

  /** The object behind "data:", when the line has one. */
  function PayloadOf(decode: Decoder, line: seq<byte>): Option<map<string, Json>> {
    var text := StripReturns(line);
    if |text| < 5 || text[..5] != [100, 97, 116, 97, 58] then None
    else match decode(StripBytes(text[5..])) case Some(JObj(fields)) => Some(fields) case _ => None
  }

  function TypeOf(fields: map<string, Json>): string {
    if "type" in fields && fields["type"].JStr? then fields["type"].chars else ""
  }

  /** A start of a message carries its usage inside the message, a message delta beside it. */
  function UsageIn(fields: map<string, Json>): map<string, Json> {
    var around :=
      if TypeOf(fields) == "message_start" && "message" in fields && fields["message"].JObj? then fields["message"].fields
      else if TypeOf(fields) == "message_delta" then fields
      else map[];
    if "usage" in around && around["usage"].JObj? then around["usage"].fields else map[]
  }

  function Carried(decode: Decoder, line: seq<byte>, name: string): Option<int> {
    match PayloadOf(decode, line) case Some(fields) => IntIn(UsageIn(fields), name) case None => None
  }

  /** A count as the last line that carries it has it. */
  function LastCount(decode: Decoder, lines: seq<seq<byte>>, name: string): int {
    if lines == [] then 0
    else
      var n := |lines| - 1;
      if Carried(decode, lines[n], name).Some? then Carried(decode, lines[n], name).value else LastCount(decode, lines[..n], name)
  }

  predicate IsDelta(decode: Decoder, line: seq<byte>) {
    PayloadOf(decode, line).Some? && TypeOf(PayloadOf(decode, line).value) == "content_block_delta"
  }

  predicate AnyDelta(decode: Decoder, lines: seq<seq<byte>>) {
    exists k :: 0 <= k < |lines| && IsDelta(decode, lines[k])
  }

  /** Each count is the last one carried, and a first delta is noted exactly when a line is one. */
  lemma {:induction false} LinesMean(decode: Decoder, lines: seq<seq<byte>>, now: real)
    ensures var reading := ReadLines(decode, NOTHING_READ, lines, now);
            && reading.usage.input == LastCount(decode, lines, "input_tokens")
            && reading.usage.output == LastCount(decode, lines, "output_tokens")
            && reading.usage.cacheCreation == LastCount(decode, lines, "cache_creation_input_tokens")
            && reading.usage.cacheRead == LastCount(decode, lines, "cache_read_input_tokens")
            && (reading.firstDelta == Some(now) <==> AnyDelta(decode, lines))
            && (reading.firstDelta.Some? ==> reading.firstDelta.value == now)
  {
    hide ReadLine, Carried, IsDelta;
    if lines != [] {
      var n := |lines| - 1;
      var front := lines[..n];
      LinesMean(decode, front, now);
      LineMeans(decode, ReadLines(decode, NOTHING_READ, front, now), lines[n], now);
      if k :| 0 <= k < |lines| && IsDelta(decode, lines[k]) {
        assert k < n ==> front[k] == lines[k];
      }
      if k :| 0 <= k < n && IsDelta(decode, front[k]) {
        assert lines[k] == front[k];
      }
    }
  }

  lemma LineMeans(decode: Decoder, before: Reading, line: seq<byte>, now: real)
    ensures var after := ReadLine(decode, before, line, now);
            && after.usage.input == Carried(decode, line, "input_tokens").GetOr(before.usage.input)
            && after.usage.output == Carried(decode, line, "output_tokens").GetOr(before.usage.output)
            && after.usage.cacheCreation == Carried(decode, line, "cache_creation_input_tokens").GetOr(before.usage.cacheCreation)
            && after.usage.cacheRead == Carried(decode, line, "cache_read_input_tokens").GetOr(before.usage.cacheRead)
            && after.firstDelta == (if before.firstDelta.None? && IsDelta(decode, line) then Some(now) else before.firstDelta)
  {
    hide StripReturns, StripBytes, IntOf;
    var text := StripReturns(line);
    assert |text| >= 5 ==> (text[..5] == DATA_PREFIX <==> DATA_PREFIX <= text);
  }

  /** The lines of a stream are its bytes cut at every line feed. */
  lemma {:induction false} SplitMeans(data: seq<byte>)
    ensures Lines(Split(data).0) + Split(data).1 == data
    ensures 10 !in Split(data).1 && forall k :: 0 <= k < |Split(data).0| ==> 10 !in Split(data).0[k]
  {
    if data != [] {
      var front := data[..|data| - 1];
      SplitMeans(front);
      var (lines, rest) := Split(front);
      LastApart(data);
      if data[|data| - 1] == 10 {
        assert (lines + [rest])[..|lines|] == lines;
        Associative(Lines(lines), rest, [10]);
      } else {
        Associative(Lines(lines), rest, [data[|data| - 1]]);
      }
    }
  }

  /** Lines, each with its line feed. */
  function Lines(lines: seq<seq<byte>>): seq<byte> {
    if lines == [] then [] else Lines(lines[..|lines| - 1]) + (lines[|lines| - 1] + [10])
  }

  /** What stands between the white space around a payload, and before the returns of a line. */
  lemma {:induction false} StripReturnsMeans(line: seq<byte>)
    ensures StripReturns(line) <= line && forall k :: |StripReturns(line)| <= k < |line| ==> line[k] == 13
    ensures StripReturns(line) != [] ==> StripReturns(line)[|StripReturns(line)| - 1] != 13
  {
    if line != [] && line[|line| - 1] == 13 {
      StripReturnsMeans(line[..|line| - 1]);
    }
  }

  /** The bytes Python strips. */
  predicate IsStripped(s: seq<byte>) {
    forall k :: 0 <= k < |s| ==> s[k] in {9, 10, 11, 12, 13, 32}
  }

  lemma StripBytesMeans(s: seq<byte>) returns (before: seq<byte>, after: seq<byte>)
    ensures s == before + StripBytes(s) + after && IsStripped(before) && IsStripped(after)
    ensures StripBytes(s) != [] ==>
              StripBytes(s)[0] !in {9, 10, 11, 12, 13, 32} && StripBytes(s)[|StripBytes(s)| - 1] !in {9, 10, 11, 12, 13, 32}
  {
    before := StripBytesLeftMeans(s);
    after := StripBytesRightMeans(StripBytesLeft(s));
  }

  lemma {:induction false} StripBytesLeftMeans(s: seq<byte>) returns (before: seq<byte>)
    ensures s == before + StripBytesLeft(s) && IsStripped(before)
    ensures StripBytesLeft(s) != [] ==> StripBytesLeft(s)[0] !in {9, 10, 11, 12, 13, 32}
  {
    before := [];
    if s != [] && IsByteSpace(s[0]) {
      before := StripBytesLeftMeans(s[1..]);
      before := [s[0]] + before;
    }
  }

  lemma {:induction false} StripBytesRightMeans(s: seq<byte>) returns (after: seq<byte>)
    ensures s == StripBytesRight(s) + after && IsStripped(after)
    ensures StripBytesRight(s) != [] ==>
              StripBytesRight(s)[0] == s[0] && StripBytesRight(s)[|StripBytesRight(s)| - 1] !in {9, 10, 11, 12, 13, 32}
  {
    after := [];
    if s != [] && IsByteSpace(s[|s| - 1]) {
      after := StripBytesRightMeans(s[..|s| - 1]);
      after := after + [s[|s| - 1]];
      assert StripBytesRight(s) != [] ==> s[..|s| - 1] != [] && s[..|s| - 1][0] == s[0];
    }
  }

  /** Integers are read off their decimal digits, and nothing else is one. */
  lemma IntsAreRead(n: nat, text: string)
    ensures IntOf(JNum(Numeral(n))) == Some(n as int) && IntOf(JNum("-" + Numeral(n))) == Some(0 - n as int)
    ensures (exists k :: 0 <= k < |text| && text[k] !in "-0123456789") ==> IntOf(JNum(text)) == None
    ensures IntOf(JNum("")) == None && forall v: Json :: !v.JNum? ==> IntOf(v) == None
  {
    hide ValueOf, Numeral;
    NumeralMeans(n);
    assert ("-" + Numeral(n))[1..] == Numeral(n);
    if k :| 0 <= k < |text| && text[k] !in "-0123456789" {
      assert k > 0 ==> text[1..][k - 1] == text[k];
    }
  }

  // ----- cutting a stream

  lemma {:induction false} SplitJoin(a: seq<byte>, b: seq<byte>)
    ensures Split(a + b) == (Split(a).0 + Split(Split(a).1 + b).0, Split(Split(a).1 + b).1)
  {
    var rest := Split(a).1;
    if b == [] {
      assert a + b == a && rest + b == rest;
      RestHasNoLine(a);
      assert Split(a).0 + [] == Split(a).0;
    } else {
      var front, last := b[..|b| - 1], b[|b| - 1];
      SplitJoin(a, front);
      assert (a + b)[..|a + b| - 1] == a + front && (a + b)[|a + b| - 1] == last;
      assert (rest + b)[..|rest + b| - 1] == rest + front && (rest + b)[|rest + b| - 1] == last;
      var more := Split(rest + front);
      if last == LINE_FEED {
        Associative(Split(a).0, more.0, [more.1]);
      }
    }
  }

  lemma {:induction false} SplitWhole(line: seq<byte>)
    requires LINE_FEED !in line
    ensures Split(line) == ([], line)
  {
    if line != [] {
      var front, last := line[..|line| - 1], line[|line| - 1];
      assert front + [last] == line;
      assert last in line;
      SplitWhole(front);
    }
  }

  lemma {:induction false} RestHasNoLine(data: seq<byte>)
    ensures LINE_FEED !in Split(data).1 && Split(Split(data).1) == ([], Split(data).1)
  {
    if data != [] {
      RestHasNoLine(data[..|data| - 1]);
    }
    SplitWhole(Split(data).1);
  }

  datatype Chunk = Chunk(bytes: seq<byte>, at: real)

  function Bytes(chunks: seq<Chunk>): seq<byte> {
    if chunks == [] then [] else Bytes(chunks[..|chunks| - 1]) + chunks[|chunks| - 1].bytes
  }

  function FeedAll(decode: Decoder, chunks: seq<Chunk>): Scan {
    if chunks == [] then Scan(NOTHING_READ, [])
    else Feed(decode, FeedAll(decode, chunks[..|chunks| - 1]), chunks[|chunks| - 1].bytes, chunks[|chunks| - 1].at)
  }

  /** At no chunk end is the incomplete line longer than the limit. */
  predicate KeepsWithinLimit(chunks: seq<Chunk>) {
    forall k :: 0 <= k <= |chunks| ==> |Split(Bytes(chunks[..k])).1| <= MONITOR_SSE_LINE_LIMIT
  }

  /** Reading apart from when the first delta came. */
  function Untimed(reading: Reading): (Usage, bool) {
    (reading.usage, reading.firstDelta.Some?)
  }

  lemma UntimedLine(decode: Decoder, a: Reading, b: Reading, line: seq<byte>, t: real, u: real)
    requires Untimed(a) == Untimed(b)
    ensures Untimed(ReadLine(decode, a, line, t)) == Untimed(ReadLine(decode, b, line, u))
  {
  }

  lemma {:induction false} UntimedLines(decode: Decoder, a: Reading, b: Reading, lines: seq<seq<byte>>, t: real, u: real)
    requires Untimed(a) == Untimed(b)
    ensures Untimed(ReadLines(decode, a, lines, t)) == Untimed(ReadLines(decode, b, lines, u))
  {
    if lines != [] {
      var n := |lines| - 1;
      UntimedLines(decode, a, b, lines[..n], t, u);
      UntimedLine(decode, ReadLines(decode, a, lines[..n], t), ReadLines(decode, b, lines[..n], u), lines[n], t, u);
    }
  }

  lemma {:induction false} ReadLinesConcat(decode: Decoder, r: Reading, a: seq<seq<byte>>, b: seq<seq<byte>>, now: real)
    ensures ReadLines(decode, r, a + b, now) == ReadLines(decode, ReadLines(decode, r, a, now), b, now)
  {
    if b == [] {
      assert a + b == a;
    } else {
      assert (a + b)[..|a + b| - 1] == a + b[..|b| - 1];
      ReadLinesConcat(decode, r, a, b[..|b| - 1], now);
    }
  }

  /** However a stream is cut, the scanner reads what one pass over its complete lines reads. */
  lemma {:induction false} CutsDoNotMatter(decode: Decoder, chunks: seq<Chunk>, now: real)
    requires KeepsWithinLimit(chunks)
    ensures FeedAll(decode, chunks).pending == Split(Bytes(chunks)).1
    ensures Untimed(FeedAll(decode, chunks).reading) == Untimed(ReadLines(decode, NOTHING_READ, Split(Bytes(chunks)).0, now))
  {
    if chunks != [] {
      var front, last := chunks[..|chunks| - 1], chunks[|chunks| - 1];
      forall k | 0 <= k <= |front| ensures |Split(Bytes(front[..k])).1| <= MONITOR_SSE_LINE_LIMIT {
        assert front[..k] == chunks[..k];
      }
      CutsDoNotMatter(decode, front, now);
      assert chunks[..|chunks|] == chunks;
      var before := Split(Bytes(front));
      var lines := Split(before.1 + last.bytes).0;
      SplitJoin(Bytes(front), last.bytes);
      ReadLinesConcat(decode, NOTHING_READ, before.0, lines, now);
      UntimedLines(decode, FeedAll(decode, front).reading, ReadLines(decode, NOTHING_READ, before.0, now), lines, last.at, now);
    }
  }

  predicate LinesWithinLimit(data: seq<byte>) {
    && (forall k :: 0 <= k < |Split(data).0| ==> |Split(data).0[k]| <= MONITOR_SSE_LINE_LIMIT)
    && |Split(data).1| <= MONITOR_SSE_LINE_LIMIT
  }

  /** An incomplete line is part of a line of any longer data. */
  lemma {:induction false} RestGrows(a: seq<byte>, b: seq<byte>)
    requires LinesWithinLimit(a + b)
    ensures |Split(a).1| <= MONITOR_SSE_LINE_LIMIT
    decreases |b|
  {
    if b == [] {
      assert a + b == a;
    } else {
      var front, last := b[..|b| - 1], b[|b| - 1];
      assert (a + b)[..|a + b| - 1] == a + front && (a + b)[|a + b| - 1] == last;
      DropLastKeepsLimit(a + front, last);
      assert a + b == (a + front) + [last];
      RestGrows(a, front);
    }
  }

  lemma DropLastKeepsLimit(data: seq<byte>, last: byte)
    requires LinesWithinLimit(data + [last])
    ensures LinesWithinLimit(data)
  {
    assert (data + [last])[..|data|] == data;
    var (lines, rest) := Split(data);
    if last == LINE_FEED {
      assert Split(data + [last]).0 == lines + [rest];
      assert (lines + [rest])[|lines|] == rest;
      assert forall k :: 0 <= k < |lines| ==> (lines + [rest])[k] == lines[k];
    }
  }

  lemma {:induction false} BytesPrefix(chunks: seq<Chunk>, k: nat) returns (rest: seq<byte>)
    requires k <= |chunks|
    ensures Bytes(chunks) == Bytes(chunks[..k]) + rest
    decreases |chunks| - k
  {
    if k == |chunks| {
      assert chunks[..k] == chunks;
      rest := [];
    } else {
      var more := BytesPrefix(chunks, k + 1);
      assert chunks[..k + 1][..k] == chunks[..k];
      rest := chunks[k].bytes + more;
      Associative(Bytes(chunks[..k]), chunks[k].bytes, more);
    }
  }

  /** Any two ways of cutting a stream whose lines stay within the limit give the same counts. */
  lemma ChunkingIsFree(decode: Decoder, one: seq<Chunk>, two: seq<Chunk>)
    requires Bytes(one) == Bytes(two) && LinesWithinLimit(Bytes(one))
    ensures FeedAll(decode, one).reading.usage == FeedAll(decode, two).reading.usage
    ensures FeedAll(decode, one).reading.firstDelta.Some? <==> FeedAll(decode, two).reading.firstDelta.Some?
    ensures FeedAll(decode, one).pending == FeedAll(decode, two).pending
  {
    WithinLimit(one);
    WithinLimit(two);
    CutsDoNotMatter(decode, one, 0.0);
    CutsDoNotMatter(decode, two, 0.0);
  }

  lemma WithinLimit(chunks: seq<Chunk>)
    requires LinesWithinLimit(Bytes(chunks))
    ensures KeepsWithinLimit(chunks)
  {
    forall k | 0 <= k <= |chunks| ensures |Split(Bytes(chunks[..k])).1| <= MONITOR_SSE_LINE_LIMIT {
      var rest := BytesPrefix(chunks, k);
      RestGrows(Bytes(chunks[..k]), rest);
    }
  }

  lemma WithinLimitPrefix(chunks: seq<Chunk>, k: nat)
    requires KeepsWithinLimit(chunks) && k <= |chunks|
    ensures KeepsWithinLimit(chunks[..k])
  {
    forall j | 0 <= j <= |chunks[..k]| ensures |Split(Bytes(chunks[..k][..j])).1| <= MONITOR_SSE_LINE_LIMIT {
      assert chunks[..k][..j] == chunks[..j];
    }
  }

  lemma PendingWithinLimit(decode: Decoder, chunks: seq<Chunk>)
    ensures |FeedAll(decode, chunks).pending| <= MONITOR_SSE_LINE_LIMIT
  {
  }

  /** The scanner holds on to every incomplete line exactly when none is above the limit at a chunk end. */
  lemma HoldsOnIff(decode: Decoder, chunks: seq<Chunk>)
    ensures KeepsWithinLimit(chunks) <==>
            forall k :: 0 <= k <= |chunks| ==> FeedAll(decode, chunks[..k]).pending == Split(Bytes(chunks[..k])).1
  {
    hide FeedAll, Split, Bytes;
    if KeepsWithinLimit(chunks) {
      forall k | 0 <= k <= |chunks| ensures FeedAll(decode, chunks[..k]).pending == Split(Bytes(chunks[..k])).1 {
        WithinLimitPrefix(chunks, k);
        CutsDoNotMatter(decode, chunks[..k], 0.0);
      }
    } else {
      var k :| 0 <= k <= |chunks| && |Split(Bytes(chunks[..k])).1| > MONITOR_SSE_LINE_LIMIT;
      PendingWithinLimit(decode, chunks[..k]);
    }
  }

  /**
   * A line that arrives in two pieces is read whole exactly when its first piece is within the
   * limit; of a longer first piece nothing stays, and the rest is read as a line of its own.
   */
  lemma CutLine(decode: Decoder, line: seq<byte>, p: nat, now: real)
    requires LINE_FEED !in line && p <= |line|
    ensures FeedAll(decode, [Chunk(line[..p], now), Chunk(line[p..] + [LINE_FEED], now)]).reading ==
            ReadLine(decode, NOTHING_READ, if p <= MONITOR_SSE_LINE_LIMIT then line else line[p..], now)
  {
    hide FeedAll, Split, ReadLine, ReadLines;
    var kept := if p <= MONITOR_SSE_LINE_LIMIT then line[..p] else [];
    SplitWhole(line[..p]);
    EndLine(kept + line[p..]);
    Associative(kept, line[p..], [LINE_FEED]);
    FeedPush(decode, [], Chunk(line[..p], now));
    FeedPush(decode, [Chunk(line[..p], now)], Chunk(line[p..] + [LINE_FEED], now));
    OneLine(decode, kept + line[p..], now);
    assert kept + line[p..] == if p <= MONITOR_SSE_LINE_LIMIT then line else line[p..];
  }

  /** The payload of one counted token. */
  const ONE_TOKEN := JObj(map["type" := JStr("message_delta"), "usage" := JObj(map["output_tokens" := JNum("1")])])

  /** A text as it stands between white space within one line. */
  predicate IsBare(text: seq<byte>) {
    text != [] && LINE_FEED !in text && !IsByteSpace(text[0]) && !IsByteSpace(text[|text| - 1])
  }

  /** A payload behind more white space than the limit. */
  function PaddedLine(text: seq<byte>): seq<byte> {
    DATA_PREFIX + (seq(MONITOR_SSE_LINE_LIMIT, _ => 32) + text)
  }

  /**
   * A line above the limit is read when it is cut at its start and lost when it is cut at its
   * end: whatever object a text decodes to, the line with that text behind white space.
   */
  lemma LongLineDependsOnCuts(decode: Decoder, text: seq<byte>, now: real) returns (one: seq<Chunk>, two: seq<Chunk>)
    requires IsBare(text) && decode(text).Some? && decode(text).value.JObj?
    ensures Bytes(one) == Bytes(two) == PaddedLine(text) + [LINE_FEED]
    ensures FeedAll(decode, one).reading == ReadPayload(NOTHING_READ, decode(text).value, now)
    ensures FeedAll(decode, two).reading == NOTHING_READ
  {
    hide FeedAll, Bytes, ReadLine, ReadPayload, PaddedLine;
    var line := PaddedLine(text);
    PaddedRead(decode, text, now);
    one := [Chunk(line[..0], now), Chunk(line[0..] + [LINE_FEED], now)];
    two := [Chunk(line[..|line|], now), Chunk(line[|line|..] + [LINE_FEED], now)];
    CutLine(decode, line, 0, now);
    CutLine(decode, line, |line|, now);
    TwoBytes(line, 0, now);
    TwoBytes(line, |line|, now);
    OneLine(decode, [], now);
    assert line[|line|..] == [] && line[0..] == line;
  }

  /** For instance one output token against none, under every decoder that reads the payload's text. */
  lemma LongLineCounts(decode: Decoder, text: seq<byte>, now: real) returns (one: seq<Chunk>, two: seq<Chunk>)
    requires IsBare(text) && decode(text) == Some(ONE_TOKEN)
    ensures Bytes(one) == Bytes(two)
    ensures FeedAll(decode, one).reading.usage == NO_USAGE.(output := 1) && FeedAll(decode, two).reading.usage == NO_USAGE
  {
    hide FeedAll, Bytes, PaddedLine;
    one, two := LongLineDependsOnCuts(decode, text, now);
    assert ValueOf("1") == 1;
  }

  lemma PaddedRead(decode: Decoder, text: seq<byte>, now: real)
    requires IsBare(text) && decode(text).Some? && decode(text).value.JObj?
    ensures var line := PaddedLine(text);
            && |line| > MONITOR_SSE_LINE_LIMIT && LINE_FEED !in line
            && ReadLine(decode, NOTHING_READ, line, now) == ReadPayload(NOTHING_READ, decode(text).value, now)
  {
    hide ReadPayload;
    var padding: seq<byte> := seq(MONITOR_SSE_LINE_LIMIT, _ => 32);
    var line := PaddedLine(text);
    StripPadding(padding, text);
    assert line[|line| - 1] == text[|text| - 1];
    assert line[|DATA_PREFIX|..] == padding + text;
  }

  lemma {:induction false} StripPadding(padding: seq<byte>, text: seq<byte>)
    requires IsBare(text) && forall k :: 0 <= k < |padding| ==> IsByteSpace(padding[k])
    ensures StripBytes(padding + text) == text
  {
    if padding == [] {
      assert padding + text == text;
    } else {
      assert (padding + text)[1..] == padding[1..] + text;
      StripPadding(padding[1..], text);
    }
  }

  lemma TwoBytes(line: seq<byte>, p: nat, now: real)
    requires p <= |line|
    ensures Bytes([Chunk(line[..p], now), Chunk(line[p..] + [LINE_FEED], now)]) == line + [LINE_FEED]
  {
    var (x, y) := (Chunk(line[..p], now), Chunk(line[p..] + [LINE_FEED], now));
    assert [x, y][..1] == [x] && [x][..0] == [];
    assert Bytes([x]) == line[..p];
    assert line[..p] + line[p..] == line;
  }

  lemma EndLine(line: seq<byte>)
    requires LINE_FEED !in line
    ensures Split(line + [LINE_FEED]) == ([line], [])
  {
    SplitWhole(line);
    assert (line + [LINE_FEED])[..|line|] == line;
    assert [] + [line] == [line];
  }

  lemma FeedPush(decode: Decoder, chunks: seq<Chunk>, last: Chunk)
    ensures FeedAll(decode, chunks + [last]) == Feed(decode, FeedAll(decode, chunks), last.bytes, last.at)
    ensures chunks == [] ==>
              [] + [last] == [last] && FeedAll(decode, chunks) == Scan(NOTHING_READ, []) && [] + last.bytes == last.bytes
    ensures |chunks| == 1 ==> chunks + [last] == [chunks[0], last]
  {
    assert (chunks + [last])[..|chunks|] == chunks;
  }

  lemma OneLine(decode: Decoder, line: seq<byte>, now: real)
    ensures ReadLines(decode, NOTHING_READ, [], now) == NOTHING_READ
    ensures line == [] ==> ReadLine(decode, NOTHING_READ, line, now) == NOTHING_READ
    ensures ReadLines(decode, NOTHING_READ, [line], now) == ReadLine(decode, NOTHING_READ, line, now)
  {
    assert [line][..0] == [];
    assert ReadLines(decode, NOTHING_READ, [], now) == NOTHING_READ;
  }

  /**
   * However a stream is cut within the limit, each of the four counts is the integer in the last
   * complete line that carries one, in the message's usage of a `message_start` or in the usage of
   * a `message_delta`, and zero without such a line; a first delta is noted exactly when a
   * complete line is a `content_block_delta`.
   */
  lemma StreamCounts(decode: Decoder, chunks: seq<Chunk>)
    requires KeepsWithinLimit(chunks)
    ensures var reading, lines := FeedAll(decode, chunks).reading, Split(Bytes(chunks)).0;
            && reading.usage.input == LastCount(decode, lines, "input_tokens")
            && reading.usage.output == LastCount(decode, lines, "output_tokens")
            && reading.usage.cacheCreation == LastCount(decode, lines, "cache_creation_input_tokens")
            && reading.usage.cacheRead == LastCount(decode, lines, "cache_read_input_tokens")
            && (reading.firstDelta.Some? <==> AnyDelta(decode, lines))
  {
    hide FeedAll, ReadLines, Split, LastCount, AnyDelta;
    CutsDoNotMatter(decode, chunks, 0.0);
    LinesMean(decode, Split(Bytes(chunks)).0, 0.0);
  }

  /** The first delta is timed by the chunk that completes its line, and not again. */
  lemma FirstDeltaIsTimed(decode: Decoder, scan: Scan, chunk: seq<byte>, now: real)
    ensures var after, lines := Feed(decode, scan, chunk, now), Split(scan.pending + chunk).0;
            after.reading.firstDelta ==
              if scan.reading.firstDelta.None? && (AnyDelta(decode, lines)) then Some(now)
              else scan.reading.firstDelta
  {
    hide ReadLines, AnyDelta;
    DeltaTimed(decode, scan.reading, Split(scan.pending + chunk).0, now);
  }

  lemma {:induction false} DeltaTimed(decode: Decoder, before: Reading, lines: seq<seq<byte>>, now: real)
    ensures ReadLines(decode, before, lines, now).firstDelta ==
              if before.firstDelta.None? && (AnyDelta(decode, lines)) then Some(now)
              else before.firstDelta
  {
    hide ReadLine, IsDelta;
    if lines != [] {
      var n := |lines| - 1;
      DeltaTimed(decode, before, lines[..n], now);
      LineMeans(decode, ReadLines(decode, before, lines[..n], now), lines[n], now);
      if k :| 0 <= k < |lines| && IsDelta(decode, lines[k]) {
        assert k < n ==> lines[..n][k] == lines[k];
      }
      if k :| 0 <= k < n && IsDelta(decode, lines[..n][k]) {
        assert lines[k] == lines[..n][k];
      }
    }
  }
}
