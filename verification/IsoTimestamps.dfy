/**
 * The timestamps of the request log as text. Windows, buckets and pruning
 * compare and cut these strings; what they rely on is that the text sorts as
 * the time does, although a whole second is written without its fraction.
 * Times are microseconds since the start of year 1, UTC.
 */
module IsoTimestamps {
  import opened Common
  import opened Sorting
  import opened Text
  import RequestLog

  /** A moment in UTC. */
  datatype Stamp = Stamp(year: nat, month: nat, day: nat, hour: nat, minute: nat, second: nat, micro: nat)

  predicate Valid(s: Stamp) {
    s.year < 10_000 && s.month < 100 && s.day < 100 && s.hour < 24 && s.minute < 60 && s.second < 60 && s.micro < 1_000_000
  }

  /** The order of time: by the larger units first. */
  predicate NotAfter(a: Stamp, b: Stamp) {
    if a.year != b.year then a.year < b.year
    else if a.month != b.month then a.month < b.month
    else if a.day != b.day then a.day < b.day
    else if a.hour != b.hour then a.hour < b.hour
    else if a.minute != b.minute then a.minute < b.minute
    else if a.second != b.second then a.second < b.second
    else a.micro <= b.micro
  }

  function Two(n: nat): string
    requires n < 100
  {
    [Digit(n / 10), Digit(n % 10)]
  }

  function Date(s: Stamp): string
    requires Valid(s)
  {
    Two(s.year / 100) + (Two(s.year % 100) + ("-" + (Two(s.month) + ("-" + Two(s.day)))))
  }

  /** The fraction, written only when there is one, and the offset. */
  function Tail(s: Stamp, offset: string): string
    requires Valid(s)
  {
    if s.micro == 0 then offset
    else "." + (Two(s.micro / 10_000) + (Two(s.micro / 100 % 100) + (Two(s.micro % 100) + offset)))
  }

  /** Date and time to the second, then the rest. */
  function ToSecond(s: Stamp, rest: string): string
    requires Valid(s)
  {
    Two(s.year / 100) + (Two(s.year % 100) + ("-" + (Two(s.month) + ("-" + (Two(s.day) + ("T" +
    (Two(s.hour) + (":" + (Two(s.minute) + (":" + (Two(s.second) + rest)))))))))))
  }

  /** A moment with its offset from UTC written as `offset`. */
  function IsoAt(s: Stamp, offset: string): string
    requires Valid(s)
  {
    ToSecond(s, Tail(s, offset))
  }

  function Iso(s: Stamp): string
    requires Valid(s)
  {
    IsoAt(s, "+00:00")
  }

  lemma CharLeq(c: char, x: string, d: char, y: string)
    ensures StringLeq([c] + x, [d] + y) <==> c < d || (c == d && StringLeq(x, y))
  {
    assert ([c] + x)[1..] == x && ([d] + y)[1..] == y;
  }

  lemma TwoLeq(n: nat, x: string, m: nat, y: string)
    requires n < 100 && m < 100
    ensures StringLeq(Two(n) + x, Two(m) + y) <==> n < m || (n == m && StringLeq(x, y))
  {
    hide StringLeq;
    assert Two(n) + x == [Digit(n / 10)] + ([Digit(n % 10)] + x);
    assert Two(m) + y == [Digit(m / 10)] + ([Digit(m % 10)] + y);
    CharLeq(Digit(n / 10), [Digit(n % 10)] + x, Digit(m / 10), [Digit(m % 10)] + y);
    CharLeq(Digit(n % 10), x, Digit(m % 10), y);
  }

  lemma SameStart(separator: string, x: string, y: string)
    requires |separator| == 1
    ensures StringLeq(separator + x, separator + y) <==> StringLeq(x, y)
  {
    CharLeq(separator[0], x, separator[0], y);
    assert separator == [separator[0]];
  }

  lemma MicroDigits(n: nat, m: nat)
    requires n < 1_000_000 && m < 1_000_000
    ensures n <= m <==>
            n / 10_000 < m / 10_000 || (n / 10_000 == m / 10_000 && (n / 100 % 100 < m / 100 % 100
              || (n / 100 % 100 == m / 100 % 100 && n % 100 <= m % 100)))
  {
    SixDigits(n);
    SixDigits(m);
  }

  lemma SixDigits(n: nat)
    ensures n == n / 10_000 * 10_000 + n / 100 % 100 * 100 + n % 100
  {
    Hundreds(n);
    Hundreds(n / 100);
    TenThousands(n);
  }

  lemma Hundreds(n: nat)
    ensures n == n / 100 * 100 + n % 100
  {
  }

  lemma TenThousands(n: nat)
    ensures n / 10_000 == n / 100 / 100
  {
  }

  /** A whole second is written shorter, and still sorts before its fractions: '+' is before '.'. */
  lemma TailLeq(a: Stamp, b: Stamp)
    requires Valid(a) && Valid(b)
    ensures StringLeq(Tail(a, "+00:00"), Tail(b, "+00:00")) <==> a.micro <= b.micro
  {
    hide Two;
    var end := "+00:00";
    StringLeqTotal(end, end);
    if a.micro > 0 && b.micro > 0 {
      hide StringLeq;
      var a3, b3 := Two(a.micro % 100) + end, Two(b.micro % 100) + end;
      var a2, b2 := Two(a.micro / 100 % 100) + a3, Two(b.micro / 100 % 100) + b3;
      SameStart(".", Two(a.micro / 10_000) + a2, Two(b.micro / 10_000) + b2);
      TwoLeq(a.micro / 10_000, a2, b.micro / 10_000, b2);
      TwoLeq(a.micro / 100 % 100, a3, b.micro / 100 % 100, b3);
      TwoLeq(a.micro % 100, end, b.micro % 100, end);
      MicroDigits(a.micro, b.micro);
    } else {
      assert a.micro > 0 ==> Tail(a, end)[0] == '.';
      assert b.micro > 0 ==> Tail(b, end)[0] == '.';
    }
  }

  /** Up to the second, the text sorts as the time does, and then by the rest. */
  lemma ToSecondLeq(a: Stamp, x: string, b: Stamp, y: string)
    requires Valid(a) && Valid(b)
    ensures StringLeq(ToSecond(a, x), ToSecond(b, y)) <==>
            if a.(micro := 0) == b.(micro := 0) then StringLeq(x, y) else NotAfter(a, b)
  {
    hide StringLeq, Two;
    var a8, b8 := Two(a.second) + x, Two(b.second) + y;
    var a7, b7 := Two(a.minute) + (":" + a8), Two(b.minute) + (":" + b8);
    var a6, b6 := Two(a.hour) + (":" + a7), Two(b.hour) + (":" + b7);
    var a5, b5 := Two(a.day) + ("T" + a6), Two(b.day) + ("T" + b6);
    var a4, b4 := Two(a.month) + ("-" + a5), Two(b.month) + ("-" + b5);
    var a3, b3 := Two(a.year % 100) + ("-" + a4), Two(b.year % 100) + ("-" + b4);
    TwoLeq(a.year / 100, a3, b.year / 100, b3);
    TwoLeq(a.year % 100, "-" + a4, b.year % 100, "-" + b4);
    SameStart("-", a4, b4);
    TwoLeq(a.month, "-" + a5, b.month, "-" + b5);
    SameStart("-", a5, b5);
    TwoLeq(a.day, "T" + a6, b.day, "T" + b6);
    SameStart("T", a6, b6);
    TwoLeq(a.hour, ":" + a7, b.hour, ":" + b7);
    SameStart(":", a7, b7);
    TwoLeq(a.minute, ":" + a8, b.minute, ":" + b8);
    SameStart(":", a8, b8);
    TwoLeq(a.second, x, b.second, y);
  }

  /** Timestamps of the log sort as text exactly as they do in time. */
  lemma TextSortsAsTime(a: Stamp, b: Stamp)
    requires Valid(a) && Valid(b)
    ensures StringLeq(Iso(a), Iso(b)) <==> NotAfter(a, b)
  {
    hide StringLeq, Two, ToSecond, Tail;
    ToSecondLeq(a, Tail(a, "+00:00"), b, Tail(b, "+00:00"));
    TailLeq(a, b);
  }

  lemma TwoIsOne(n: nat, m: nat)
    requires n < 100 && m < 100
    ensures Two(n) == Two(m) <==> n == m
  {
    assert Two(n) == Two(m) ==> Two(n)[0] == Two(m)[0] && Two(n)[1] == Two(m)[1];
    assert Digit(n / 10) == Digit(m / 10) && Digit(n % 10) == Digit(m % 10) ==> n == m;
  }

  lemma DateLength(s: Stamp)
    requires Valid(s)
    ensures |Date(s)| == 10 && |Iso(s)| > 13
    ensures Iso(s)[..10] == Date(s) && Iso(s)[..13] == Date(s) + ("T" + Two(s.hour))
  {
    hide Two, Tail;
    TwoLong();
    var rest := ":" + (Two(s.minute) + (":" + (Two(s.second) + Tail(s, "+00:00"))));
    assert Iso(s) == (Date(s) + ("T" + Two(s.hour))) + rest;
    assert (Date(s) + ("T" + Two(s.hour)))[..10] == Date(s);
  }

  lemma TwoLong()
    ensures forall n: nat :: n < 100 ==> |Two(n)| == 2
  {
  }

  lemma SameDate(a: Stamp, b: Stamp)
    requires Valid(a) && Valid(b)
    ensures Date(a) == Date(b) <==> a.year == b.year && a.month == b.month && a.day == b.day
  {
    hide Two;
    TwoLong();
    TwoIsOne(a.year / 100, b.year / 100);
    TwoIsOne(a.year % 100, b.year % 100);
    TwoIsOne(a.month, b.month);
    TwoIsOne(a.day, b.day);
    DateParts(a);
    DateParts(b);
  }

  lemma DateParts(s: Stamp)
    requires Valid(s)
    ensures var d := Date(s);
            && |d| == 10 && d[0..2] == Two(s.year / 100) && d[2..4] == Two(s.year % 100) && d[5..7] == Two(s.month) && d[8..10] == Two(s.day)
  {
    hide Two;
    TwoLong();
  }

  /** The first ten characters name the day, the first thirteen the hour. */
  lemma PrefixesAreBuckets(a: Stamp, b: Stamp)
    requires Valid(a) && Valid(b)
    ensures |Iso(a)| > 13 && |Iso(b)| > 13
    ensures Iso(a)[..10] == Iso(b)[..10] <==> a.year == b.year && a.month == b.month && a.day == b.day
    ensures Iso(a)[..13] == Iso(b)[..13] <==> a.year == b.year && a.month == b.month && a.day == b.day && a.hour == b.hour
  {
    hide Two, Date, Iso;
    DateLength(a);
    DateLength(b);
    SameDate(a, b);
    TwoIsOne(a.hour, b.hour);
    HourBehindDate(Date(a), Two(a.hour), Date(b), Two(b.hour));
  }

  lemma HourBehindDate(a: string, x: string, b: string, y: string)
    requires |a| == |b|
    ensures a + ("T" + x) == b + ("T" + y) <==> a == b && x == y
  {
    if a + ("T" + x) == b + ("T" + y) {
      assert (a + ("T" + x))[..|a|] == a && (b + ("T" + y))[..|b|] == b;
      assert (a + ("T" + x))[|a| + 1..] == x && (b + ("T" + y))[|b| + 1..] == y;
    }
  }

  // ----- the calendar

  datatype Civil = Civil(year: nat, month: nat, day: nat)

  predicate IsLeap(year: nat) {
    year % 4 == 0 && (year % 100 != 0 || year % 400 == 0)
  }

  function MonthLength(year: nat, month: nat): nat {
    if month == 2 then (if IsLeap(year) then 29 else 28)
    else if month == 4 || month == 6 || month == 9 || month == 11 then 30
    else 31
  }

  function NextDate(d: Civil): Civil {
    if d.day < MonthLength(d.year, d.month) then d.(day := d.day + 1)
    else if d.month < 12 then Civil(d.year, d.month + 1, 1)
    else Civil(d.year + 1, 1, 1)
  }

  /** The date `n` days after the first of January of year 1. */
  function DateOf(n: nat): (d: Civil)
    ensures 1 <= d.month <= 12 && 1 <= d.day <= 31
  {
    if n == 0 then Civil(1, 1, 1) else NextDate(DateOf(n - 1))
  }

  predicate Earlier(a: Civil, b: Civil) {
    a.year < b.year || (a.year == b.year && (a.month < b.month || (a.month == b.month && a.day < b.day)))
  }

  lemma {:induction false} DatesAdvance(n: nat, m: nat)
    requires n < m
    ensures Earlier(DateOf(n), DateOf(m))
    decreases m
  {
    if n < m - 1 {
      DatesAdvance(n, m - 1);
    }
  }

  const MINUTE_US := 60_000_000
  const SECOND_US := 1_000_000

  /** A time whose year is written in four digits. */
  predicate Representable(t: int) {
    0 <= t && DateOf(t / RequestLog.DAY_US).year < 10_000
  }

  function StampOf(t: int): (s: Stamp)
    requires Representable(t)
    ensures Valid(s)
  {
    var d, r := DateOf(t / RequestLog.DAY_US), t % RequestLog.DAY_US;
    Stamp(d.year, d.month, d.day, r / RequestLog.HOUR_US, r / MINUTE_US % 60, r / SECOND_US % 60, r % SECOND_US)
  }

  lemma ClockParts(r: nat)
    requires r < RequestLog.DAY_US
    ensures r == r / RequestLog.HOUR_US * RequestLog.HOUR_US + r / MINUTE_US % 60 * MINUTE_US + r / SECOND_US % 60 * SECOND_US + r % SECOND_US
  {
    var m, s := r / MINUTE_US, r / SECOND_US;
    assert r == s * SECOND_US + r % SECOND_US;
    Sixties(s);
    MinutesOf(r);
    Sixties(m);
    HoursOf(r);
  }

  lemma Sixties(n: nat)
    ensures n == n / 60 * 60 + n % 60
  {
  }

  lemma MinutesOf(r: nat)
    ensures r / MINUTE_US == r / SECOND_US / 60
  {
  }

  lemma HoursOf(r: nat)
    ensures r / RequestLog.HOUR_US == r / MINUTE_US / 60
  {
  }

  /** The clock reading sorts as the time of day. */
  lemma ClockOrder(r: nat, q: nat)
    requires r < RequestLog.DAY_US && q < RequestLog.DAY_US
    ensures r <= q <==>
            var (h, m, s) := (r / RequestLog.HOUR_US, r / MINUTE_US % 60, r / SECOND_US % 60);
            var (i, n, z) := (q / RequestLog.HOUR_US, q / MINUTE_US % 60, q / SECOND_US % 60);
            h < i || (h == i && (m < n || (m == n && (s < z || (s == z && r % SECOND_US <= q % SECOND_US)))))
  {
    ClockParts(r);
    ClockParts(q);
  }

  /** Stamps are in the order of the times they stand for. */
  lemma StampOrder(t: int, u: int)
    requires Representable(t) && Representable(u)
    ensures NotAfter(StampOf(t), StampOf(u)) <==> t <= u
  {
    var n, m := t / RequestLog.DAY_US, u / RequestLog.DAY_US;
    hide DateOf;
    if n < m {
      DatesAdvance(n, m);
    } else if m < n {
      DatesAdvance(m, n);
    } else {
      ClockOrder(t % RequestLog.DAY_US, u % RequestLog.DAY_US);
    }
  }

  lemma DayOrder(t: int, u: int)
    requires Representable(t) && Representable(u)
    ensures DateOf(t / RequestLog.DAY_US) == DateOf(u / RequestLog.DAY_US) <==> t / RequestLog.DAY_US == u / RequestLog.DAY_US
  {
    hide DateOf;
    var n, m := t / RequestLog.DAY_US, u / RequestLog.DAY_US;
    if n < m {
      DatesAdvance(n, m);
    } else if m < n {
      DatesAdvance(m, n);
    }
  }

  /** Rows with the same first ten characters are of one day bucket, with the same thirteen of one hour bucket. */
  lemma PrefixesAreBucketNumbers(t: int, u: int)
    requires Representable(t) && Representable(u)
    ensures |Iso(StampOf(t))| > 13 && |Iso(StampOf(u))| > 13
    ensures Iso(StampOf(t))[..10] == Iso(StampOf(u))[..10] <==> t / RequestLog.DAY_US == u / RequestLog.DAY_US
    ensures Iso(StampOf(t))[..13] == Iso(StampOf(u))[..13] <==> t / RequestLog.HOUR_US == u / RequestLog.HOUR_US
  {
    hide DateOf, Iso;
    PrefixesAreBuckets(StampOf(t), StampOf(u));
    DayOrder(t, u);
    HourOfDay(t);
    HourOfDay(u);
  }

  lemma HourOfDay(t: int)
    requires t >= 0
    ensures t / RequestLog.HOUR_US == 24 * (t / RequestLog.DAY_US) + t % RequestLog.DAY_US / RequestLog.HOUR_US
    ensures 0 <= t % RequestLog.DAY_US / RequestLog.HOUR_US < 24
  {
  }

  // ----- bounds with an offset

  /** An instant and the offset from UTC its text carries. */
  datatype Moment = Moment(us: int, offset: int)

  /** An offset as it is written: seconds and their fraction only when there are any. */
  function OffsetText(offset: int): string
    requires -RequestLog.DAY_US < offset < RequestLog.DAY_US
  {
    var size := if offset < 0 then -offset else offset;
    (if offset < 0 then "-" else "+") + (Two(size / RequestLog.HOUR_US) + (":" + (Two(size / MINUTE_US % 60) + OffsetSeconds(size))))
  }

  function OffsetSeconds(size: nat): string {
    if size % MINUTE_US == 0 then ""
    else ":" + Two(size / SECOND_US % 60) +
         (if size % SECOND_US == 0 then ""
          else "." + Two(size % SECOND_US / 10_000) + Two(size % SECOND_US / 100 % 100) + Two(size % 100))
  }

  /** The text of a bound: the local time, and the offset it is local to. */
  function BoundText(m: Moment): string
    requires -RequestLog.DAY_US < m.offset < RequestLog.DAY_US && Representable(m.us + m.offset)
  {
    IsoAt(StampOf(m.us + m.offset), OffsetText(m.offset))
  }

  /** The earliest row a bound's text does not sort behind: its local time read as UTC, just after it for another offset. */
  function FirstCovered(m: Moment): int {
    m.us + m.offset + (if m.offset == 0 then 0 else 1)
  }

  lemma ZeroOffset()
    ensures OffsetText(0) == "+" + (Two(0) + (":" + (Two(0) + ""))) == "+00:00"
  {
  }

  /** Only the offset zero sorts no later than itself: '-' is behind '+', and everything else is a larger number. */
  lemma OffsetLeq(offset: int)
    requires -RequestLog.DAY_US < offset < RequestLog.DAY_US
    ensures StringLeq(OffsetText(offset), "+00:00") <==> offset == 0
  {
    hide Two, OffsetSeconds;
    ZeroOffset();
    if offset < 0 {
      assert OffsetText(offset)[0] == '-' && "+00:00"[0] == '+';
    } else {
      var rest := OffsetSeconds(offset);
      var (h, m) := (offset / RequestLog.HOUR_US, offset / MINUTE_US % 60);
      SameStart("+", Two(h) + (":" + (Two(m) + rest)), Two(0) + (":" + (Two(0) + "")));
      TwoLeq(h, ":" + (Two(m) + rest), 0, ":" + (Two(0) + ""));
      SameStart(":", Two(m) + rest, Two(0) + "");
      TwoLeq(m, rest, 0, "");
      NoSeconds(offset);
    }
  }

  lemma NoSeconds(offset: nat)
    requires offset < RequestLog.DAY_US
    ensures OffsetSeconds(offset) == "" <==> offset % MINUTE_US == 0
    ensures offset / RequestLog.HOUR_US == 0 && offset / MINUTE_US % 60 == 0 && offset % MINUTE_US == 0 ==> offset == 0
  {
  }

  lemma OffsetStart(offset: int)
    requires -RequestLog.DAY_US < offset < RequestLog.DAY_US
    ensures OffsetText(offset) != "" && OffsetText(offset)[0] < '.'
  {
  }

  lemma BoundTailLeq(a: Stamp, offset: int, b: Stamp)
    requires Valid(a) && Valid(b) && -RequestLog.DAY_US < offset < RequestLog.DAY_US
    ensures StringLeq(Tail(a, OffsetText(offset)), Tail(b, "+00:00")) <==> a.micro < b.micro || (a.micro == b.micro && offset == 0)
  {
    hide Two, OffsetText;
    var off, utc := OffsetText(offset), "+00:00";
    OffsetLeq(offset);
    OffsetStart(offset);
    if a.micro > 0 && b.micro > 0 {
      hide StringLeq;
      var a3, b3 := Two(a.micro % 100) + off, Two(b.micro % 100) + utc;
      var a2, b2 := Two(a.micro / 100 % 100) + a3, Two(b.micro / 100 % 100) + b3;
      SameStart(".", Two(a.micro / 10_000) + a2, Two(b.micro / 10_000) + b2);
      TwoLeq(a.micro / 10_000, a2, b.micro / 10_000, b2);
      TwoLeq(a.micro / 100 % 100, a3, b.micro / 100 % 100, b3);
      TwoLeq(a.micro % 100, off, b.micro % 100, utc);
      MicroDigits(a.micro, b.micro);
      MicroDigits(b.micro, a.micro);
    } else {
      assert a.micro > 0 ==> Tail(a, off)[0] == '.';
      assert b.micro > 0 ==> Tail(b, utc)[0] == '.';
    }
  }

  /** Against a row, a bound sorts by its local time as if that were UTC, behind it on a tie unless the offset is zero. */
  lemma BoundLeq(a: Stamp, offset: int, b: Stamp)
    requires Valid(a) && Valid(b) && -RequestLog.DAY_US < offset < RequestLog.DAY_US
    ensures StringLeq(IsoAt(a, OffsetText(offset)), Iso(b)) <==> NotAfter(a, b) && (a == b ==> offset == 0)
  {
    hide StringLeq, Two, ToSecond, Tail, OffsetText;
    ToSecondLeq(a, Tail(a, OffsetText(offset)), b, Tail(b, "+00:00"));
    BoundTailLeq(a, offset, b);
  }

  /** What comparing texts selects: a row is at or behind a bound exactly from `FirstCovered` on. */
  lemma BoundCovers(m: Moment, t: int)
    requires -RequestLog.DAY_US < m.offset < RequestLog.DAY_US && Representable(m.us + m.offset) && Representable(t)
    ensures StringLeq(BoundText(m), Iso(StampOf(t))) <==> FirstCovered(m) <= t
  {
    hide StringLeq, IsoAt, StampOf, OffsetText;
    var local := m.us + m.offset;
    BoundLeq(StampOf(local), m.offset, StampOf(t));
    StampOrder(local, t);
    StampOrder(t, local);
    StampsDiffer(local, t);
  }

  lemma StampsDiffer(t: int, u: int)
    requires Representable(t) && Representable(u)
    ensures StampOf(t) == StampOf(u) <==> t == u
  {
    hide StampOf;
    StampOrder(t, u);
    StampOrder(u, t);
    if StampOf(t) == StampOf(u) {
      SelfNotAfter(StampOf(t));
    }
  }

  lemma SelfNotAfter(s: Stamp)
    ensures NotAfter(s, s)
  {
  }

  lemma {:induction false} EarlierRepresentable(t: int, u: int)
    requires 0 <= t <= u && Representable(u)
    ensures Representable(t)
  {
    hide DateOf;
    var n, m := t / RequestLog.DAY_US, u / RequestLog.DAY_US;
    if n < m {
      DatesAdvance(n, m);
    }
  }

  /**
   * A bound sorts as its time against every row exactly when its offset is zero, or the one
   * microsecond west that the tie makes up for: among whole minutes, exactly when it is UTC.
   */
  lemma BoundSortsAsTimeIff(m: Moment)
    requires -RequestLog.DAY_US < m.offset < RequestLog.DAY_US && Representable(m.us + m.offset) && Representable(m.us)
    ensures (forall t: int :: Representable(t) ==> (StringLeq(BoundText(m), Iso(StampOf(t))) <==> m.us <= t))
            <==> m.offset == 0 || m.offset == -1
  {
    hide StringLeq, BoundText, Iso, StampOf, Representable;
    forall t: int | Representable(t) ensures StringLeq(BoundText(m), Iso(StampOf(t))) <==> FirstCovered(m) <= t {
      BoundCovers(m, t);
    }
    if m.offset > 0 {
      assert !StringLeq(BoundText(m), Iso(StampOf(m.us)));
    } else if m.offset < -1 {
      LocalIsNat(m.us + m.offset);
      EarlierRepresentable(FirstCovered(m), m.us);
      assert StringLeq(BoundText(m), Iso(StampOf(FirstCovered(m))));
    }
  }

  /** With an offset of whole minutes, that is exactly the bounds written in UTC. */
  lemma UtcSortsAsTimeIff(m: Moment)
    requires -RequestLog.DAY_US < m.offset < RequestLog.DAY_US && Representable(m.us + m.offset) && Representable(m.us)
    requires m.offset % MINUTE_US == 0
    ensures (forall t: int :: Representable(t) ==> (StringLeq(BoundText(m), Iso(StampOf(t))) <==> m.us <= t)) <==> m.offset == 0
  {
    hide StringLeq, BoundText, Iso, StampOf, Representable;
    BoundSortsAsTimeIff(m);
  }

  lemma LocalIsNat(t: int)
    requires Representable(t)
    ensures t >= 0
  {
  }

  // ----- the calendar, as a formula

  /** The Gregorian rule. */
  predicate HasLeapDay(year: nat) {
    if year % 4 != 0 then false else if year % 100 != 0 then true else year % 400 == 0
  }

  /** Days of a common year before a month. */
  function DaysBefore(month: nat): nat {
    if 1 <= month <= 12 then [0, 31, 59, 90, 120, 151, 181, 212, 243, 273, 304, 334][month - 1] else 0
  }

  function DaysIn(year: nat, month: nat): nat {
    if 1 <= month <= 12 then [31, if HasLeapDay(year) then 29 else 28, 31, 30, 31, 30, 31, 31, 30, 31, 30, 31][month - 1] else 0
  }

  /** The number of a day, counted from the first of January of year 1. */
  function DayNumber(d: Civil): int {
    var y := d.year - 1;
    365 * y + y / 4 - y / 100 + y / 400 + DaysBefore(d.month) + (if d.month > 2 && HasLeapDay(d.year) then 1 else 0) + d.day - 1
  }

  /** The date of a day is the one whose number it is. */
  lemma {:induction false} DatesAreNumbered(n: nat)
    ensures var d := DateOf(n); d.year >= 1 && 1 <= d.month <= 12 && 1 <= d.day <= DaysIn(d.year, d.month) && DayNumber(d) == n
  {
    if n > 0 {
      hide DaysBefore, HasLeapDay, DaysIn, NextDate;
      DatesAreNumbered(n - 1);
      NextIsNumbered(DateOf(n - 1));
    }
  }

  lemma NextIsNumbered(d: Civil)
    requires d.year >= 1 && 1 <= d.month <= 12 && 1 <= d.day <= DaysIn(d.year, d.month)
    ensures var e := NextDate(d);
            e.year >= 1 && 1 <= e.month <= 12 && 1 <= e.day <= DaysIn(e.year, e.month) && DayNumber(e) == DayNumber(d) + 1
  {
    hide DaysBefore, HasLeapDay, DaysIn, MonthLength;
    LengthsAgree(d.year, d.month);
    FirstMonth(d.year + 1);
    if d.day == DaysIn(d.year, d.month) {
      if d.month < 12 {
        MonthEnds(d.year, d.month);
      } else {
        YearEnds(d.year);
      }
    }
  }

  lemma LengthsAgree(year: nat, month: nat)
    requires 1 <= month <= 12
    ensures MonthLength(year, month) == DaysIn(year, month) >= 1
    ensures IsLeap(year) <==> HasLeapDay(year)
  {
    LeapsAgree(year);
    hide IsLeap, HasLeapDay;
  }

  lemma LeapsAgree(year: nat)
    ensures IsLeap(year) <==> HasLeapDay(year)
  {
  }

  lemma FirstMonth(year: nat)
    ensures DaysBefore(1) == 0 && DaysBefore(12) == 334 && DaysIn(year, 1) == 31 && forall y :: DaysIn(y, 12) == 31
  {
  }

  lemma MonthEnds(year: nat, month: nat)
    requires 1 <= month < 12
    ensures DaysBefore(month + 1) + (if month + 1 > 2 && HasLeapDay(year) then 1 else 0)
              == DaysBefore(month) + (if month > 2 && HasLeapDay(year) then 1 else 0) + DaysIn(year, month)
    ensures DaysIn(year, month + 1) >= 1
  {
  }

  lemma YearEnds(year: nat)
    requires year >= 1
    ensures var y := year - 1;
            365 * year + year / 4 - year / 100 + year / 400
              == 365 * y + y / 4 - y / 100 + y / 400 + 365 + (if HasLeapDay(year) then 1 else 0)
  {
    Steps(year, 4);
    Steps(year, 100);
    Steps(year, 400);
  }

  lemma Steps(year: nat, every: nat)
    requires year >= 1 && every in {4, 100, 400}
    ensures year / every == (year - 1) / every + (if year % every == 0 then 1 else 0)
  {
  }

  lemma YearsTakeDays(n: nat)
    ensures 365 * (DateOf(n).year - 1) <= n
  {
    DatesAreNumbered(n);
  }

  /** A time is the day of its date, and its clock reading on that day. */
  lemma StampMeans(t: int)
    requires Representable(t)
    ensures var s := StampOf(t);
            && t == 86_400_000_000 * DayNumber(Civil(s.year, s.month, s.day))
                    + 3_600_000_000 * s.hour + 60_000_000 * s.minute + 1_000_000 * s.second + s.micro
            && s.hour < 24 && s.minute < 60 && s.second < 60 && s.micro < 1_000_000
            && 1 <= s.month <= 12 && 1 <= s.day <= DaysIn(s.year, s.month)
  {
    hide DayNumber, DaysIn;
    DatesAreNumbered(t / RequestLog.DAY_US);
    ClockParts(t % RequestLog.DAY_US);
  }

  // ----- the text, part by part

  /** A number written with a fixed number of decimal digits. */
  predicate Writes(text: string, width: nat, n: nat) {
    |text| == width && ValueOf(text) == n && forall k :: 0 <= k < |text| ==> '0' <= text[k] <= '9'
  }

  lemma TwoWrites(n: nat)
    requires n < 100
    ensures Writes(Two(n), 2, n)
  {
    assert Two(n)[..1] == [Digit(n / 10)] && Two(n)[..1][..0] == "";
    assert ValueOf(Two(n)[..1]) == n / 10;
  }

  lemma WritesBoth(a: string, n: nat, b: string, m: nat)
    requires Writes(a, 2, n) && Writes(b, 2, m)
    ensures Writes(a + b, 4, 100 * n + m)
  {
    assert (a + b)[..3] == a + b[..1] && (a + b)[..3][..2] == a && b[..1][..0] == "";
    assert ValueOf(b[..1]) == if IsDigit(b[0]) then b[0] as int - '0' as int else 0;
  }

  lemma WritesThree(a: string, n: nat, b: string, m: nat, c: string, k: nat)
    requires Writes(a, 2, n) && Writes(b, 2, m) && Writes(c, 2, k)
    ensures Writes(a + b + c, 6, 10_000 * n + 100 * m + k)
  {
    WritesBoth(a, n, b, m);
    var ab := a + b;
    assert (ab + c)[..5] == ab + c[..1] && (ab + c)[..5][..4] == ab && c[..1][..0] == "";
    assert ValueOf(c[..1]) == if IsDigit(c[0]) then c[0] as int - '0' as int else 0;
  }

  /** A timestamp is "yyyy-mm-ddThh:mm:ss", its six-digit fraction when there is one, and the offset. */
  lemma IsoMeans(s: Stamp, offset: string)
      returns (year: string, month: string, day: string, hour: string, minute: string, second: string, fraction: string)
    requires Valid(s)
    ensures IsoAt(s, offset) ==
            year + ("-" + (month + ("-" + (day + ("T" + (hour + (":" + (minute + (":" + (second
            + if s.micro == 0 then offset else "." + (fraction + offset)))))))))))
    ensures Writes(year, 4, s.year) && Writes(month, 2, s.month) && Writes(day, 2, s.day)
    ensures Writes(hour, 2, s.hour) && Writes(minute, 2, s.minute) && Writes(second, 2, s.second) && Writes(fraction, 6, s.micro)
  {
    hide Two, Writes;
    var rest := "-" + (Two(s.month) + ("-" + (Two(s.day) + ("T" + (Two(s.hour) + (":" + (Two(s.minute) + (":" + (Two(s.second)
                + Tail(s, offset))))))))));
    Associative(Two(s.year / 100), Two(s.year % 100), rest);
    Associative(Two(s.micro / 10_000), Two(s.micro / 100 % 100), Two(s.micro % 100));
    Associative(Two(s.micro / 10_000), Two(s.micro / 100 % 100), Two(s.micro % 100) + offset);
    Associative(Two(s.micro / 10_000) + Two(s.micro / 100 % 100), Two(s.micro % 100), offset);
    year, month, day := Two(s.year / 100) + Two(s.year % 100), Two(s.month), Two(s.day);
    hour, minute, second := Two(s.hour), Two(s.minute), Two(s.second);
    fraction := Two(s.micro / 10_000) + Two(s.micro / 100 % 100) + Two(s.micro % 100);
    TwoWrites(s.year / 100);
    TwoWrites(s.year % 100);
    WritesBoth(Two(s.year / 100), s.year / 100, Two(s.year % 100), s.year % 100);
    TwoWrites(s.month);
    TwoWrites(s.day);
    TwoWrites(s.hour);
    TwoWrites(s.minute);
    TwoWrites(s.second);
    TwoWrites(s.micro / 10_000);
    TwoWrites(s.micro / 100 % 100);
    TwoWrites(s.micro % 100);
    WritesThree(Two(s.micro / 10_000), s.micro / 10_000, Two(s.micro / 100 % 100), s.micro / 100 % 100, Two(s.micro % 100), s.micro % 100);
    SixDigits(s.micro);
    assert s.year == 100 * (s.year / 100) + s.year % 100;
  }

  /** An offset is its sign, hours and minutes, and seconds and their fraction only when there are any. */
  lemma OffsetMeans(offset: int) returns (hours: nat, minutes: nat, seconds: nat, micros: nat, rest: string)
    requires -86_400_000_000 < offset < 86_400_000_000
    ensures hours < 24 && minutes < 60 && seconds < 60 && micros < 1_000_000
    ensures 3_600_000_000 * hours + 60_000_000 * minutes + 1_000_000 * seconds + micros == if offset < 0 then -offset else offset
    ensures OffsetText(offset) == (if offset < 0 then "-" else "+") + (Two(hours) + (":" + (Two(minutes) + rest)))
    ensures rest == (if seconds == 0 && micros == 0 then ""
                     else ":" + Two(seconds) + if micros == 0 then ""
                          else "." + Two(micros / 10_000) + Two(micros / 100 % 100) + Two(micros % 100))
  {
    hide Two;
    var size: nat := if offset < 0 then -offset else offset;
    hours, minutes, seconds, micros := size / 3_600_000_000, size / 60_000_000 % 60, size / 1_000_000 % 60, size % 1_000_000;
    rest := OffsetSeconds(size);
    ClockParts(size);
    MinuteParts(size);
  }

  lemma MinuteParts(size: nat)
    ensures size % MINUTE_US == 0 <==> size / SECOND_US % 60 == 0 && size % SECOND_US == 0
    ensures size % 100 == size % SECOND_US % 100
  {
    MinuteRemainder(size);
    LastTwo(size);
  }

  lemma MinuteRemainder(size: nat)
    ensures size % MINUTE_US == size / SECOND_US % 60 * SECOND_US + size % SECOND_US
  {
    var s := size / SECOND_US;
    assert size == s * SECOND_US + size % SECOND_US;
    Sixties(s);
    RemainderIs(size, s / 60, s % 60 * SECOND_US + size % SECOND_US);
  }

  lemma RemainderIs(size: nat, minutes: nat, rest: nat)
    requires size == minutes * MINUTE_US + rest && rest < MINUTE_US
    ensures size % MINUTE_US == rest
  {
  }

  lemma LastTwo(size: nat)
    ensures size % 100 == size % SECOND_US % 100
  {
    var q, r := size / SECOND_US, size % SECOND_US;
    assert size == 100 * (10_000 * q) + r;
    HundredsGone(10_000 * q, r);
  }

  lemma HundredsGone(n: nat, rest: nat)
    ensures (100 * n + rest) % 100 == rest % 100
  {
  }

  // ----- dates that fit

  /** Times within the first 9998 years of 365 days can be written. */
  lemma EarlyRepresentable(t: int)
    requires 0 <= t < 9998 * 365 * RequestLog.DAY_US
    ensures Representable(t)
  {
    hide DateOf;
    YearsTakeDays(t / RequestLog.DAY_US);
  }

  /** For instance, noon two hours east of UTC on the first of October 2026 sorts behind eleven o'clock UTC, a later time. */
  lemma OtherOffsetsSortWrong() returns (noonEast: Moment, eleven: int)
    ensures -RequestLog.DAY_US < noonEast.offset < RequestLog.DAY_US
    ensures Representable(noonEast.us + noonEast.offset) && Representable(eleven)
    ensures noonEast.us < eleven && !StringLeq(BoundText(noonEast), Iso(StampOf(eleven)))
  {
    hide Representable, BoundText, Iso, StampOf, StringLeq;
    var day := 739_889 * RequestLog.DAY_US;
    noonEast, eleven := Moment(day + 10 * RequestLog.HOUR_US, 2 * RequestLog.HOUR_US), day + 11 * RequestLog.HOUR_US;
    EarlyRepresentable(noonEast.us + noonEast.offset);
    EarlyRepresentable(eleven);
    BoundCovers(noonEast, eleven);
  }
}
