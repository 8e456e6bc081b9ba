/** Token counts and request counters, as the monitor and the request log both keep them. */
module Counters {
  import opened Common

  datatype Usage = Usage(input: int, output: int, cacheCreation: int, cacheRead: int) {
    function Add(other: Usage): Usage {
      Usage(input + other.input, output + other.output, cacheCreation + other.cacheCreation, cacheRead + other.cacheRead)
    }
  }

  const NO_USAGE := Usage(0, 0, 0, 0)

  /** Counters of a bucket of requests. */
  datatype Stats = Stats(requests: nat, errors: nat, priced: nat, duration: real, usage: Usage, cost: real) {
    function Plus(other: Stats): Stats {
      Stats(requests + other.requests, errors + other.errors, priced + other.priced, duration + other.duration,
            usage.Add(other.usage), cost + other.cost)
    }
  }

  const NO_STATS := Stats(0, 0, 0, 0.0, NO_USAGE, 0.0)

  function Sum(parts: seq<Stats>): Stats {
    if parts == [] then NO_STATS else Sum(parts[..|parts| - 1]).Plus(parts[|parts| - 1])
  }

  lemma {:induction false} SumConcat(a: seq<Stats>, b: seq<Stats>)
    ensures Sum(a + b) == Sum(a).Plus(Sum(b))
  {
    hide Sum, Stats.Plus;
    if b == [] {
      NoneAdded(a);
      SumNone(Sum(a));
    } else {
      var front, last := b[..|b| - 1], b[|b| - 1];
      SumConcat(a, front);
      LastApart(b);
      Associative(a, front, [last]);
      SumPush(a + front, last);
      SumPush(front, last);
      PlusAssociative(Sum(a), Sum(front), last);
    }
  }

  lemma SumNone(sum: Stats)
    ensures Sum([]) == NO_STATS && sum.Plus(Sum([])) == sum
  {
  }

  lemma SumPush(parts: seq<Stats>, last: Stats)
    ensures Sum(parts + [last]) == Sum(parts).Plus(last)
  {
    assert (parts + [last])[..|parts|] == parts;
  }

  lemma PlusAssociative(a: Stats, b: Stats, c: Stats)
    ensures a.Plus(b).Plus(c) == a.Plus(b.Plus(c))
  {
  }

  /** Adding to one part adds to the sum. */
  lemma {:induction false} SumUpdate(parts: seq<Stats>, k: nat, more: Stats)
    requires k < |parts|
    ensures Sum(parts[k := parts[k].Plus(more)]) == Sum(parts).Plus(more)
  {
    var n := |parts| - 1;
    var updated := parts[k := parts[k].Plus(more)];
    if k == n {
      assert updated[..n] == parts[..n];
    } else {
      assert updated[..n] == parts[..n][k := parts[k].Plus(more)];
      SumUpdate(parts[..n], k, more);
    }
  }

  lemma PlusSwaps(a: Stats, b: Stats, more: Stats)
    ensures a.Plus(more).Plus(b) == a.Plus(b).Plus(more)
  {
  }

  lemma NothingAdds(a: Stats)
    ensures a.Plus(NO_STATS) == a
  {
  }
}
