/** A stable sort, and the order of strings. */
module Sorting {

  function InsertBy<T>(leq: (T, T) -> bool, sorted: seq<T>, x: T): seq<T> {
    if sorted == [] || leq(sorted[|sorted| - 1], x) then sorted + [x]
    else InsertBy(leq, sorted[..|sorted| - 1], x) + [sorted[|sorted| - 1]]
  }

  /** A stable sort. */
  function SortBy<T>(leq: (T, T) -> bool, xs: seq<T>): seq<T> {
    if xs == [] then [] else InsertBy(leq, SortBy(leq, xs[..|xs| - 1]), xs[|xs| - 1])
  }

  ghost predicate TotalPreorder<T(!new)>(leq: (T, T) -> bool) {
    && (forall x, y :: leq(x, y) || leq(y, x))
    && (forall x, y, z :: leq(x, y) && leq(y, z) ==> leq(x, z))
  }

  ghost predicate SortedBy<T>(leq: (T, T) -> bool, xs: seq<T>) {
    forall i, j :: 0 <= i < j < |xs| ==> leq(xs[i], xs[j])
  }

  lemma {:induction false} InsertByCounts<T>(leq: (T, T) -> bool, sorted: seq<T>, x: T)
    ensures multiset(InsertBy(leq, sorted, x)) == multiset(sorted) + multiset{x}
  {
    if sorted != [] && !leq(sorted[|sorted| - 1], x) {
      var front, last := sorted[..|sorted| - 1], sorted[|sorted| - 1];
      InsertByCounts(leq, front, x);
      assert sorted == front + [last];
    }
  }

  lemma {:induction false} InsertByKeeps<T(!new)>(leq: (T, T) -> bool, sorted: seq<T>, x: T)
    requires TotalPreorder(leq) && SortedBy(leq, sorted)
    ensures SortedBy(leq, InsertBy(leq, sorted, x))
  {
    if sorted != [] {
      var front, last := sorted[..|sorted| - 1], sorted[|sorted| - 1];
      if leq(last, x) {
        forall i | 0 <= i < |sorted| ensures leq(sorted[i], x) {
          assert i < |sorted| - 1 ==> leq(sorted[i], last);
        }
      } else {
        InsertByKeeps(leq, front, x);
        InsertByCounts(leq, front, x);
        var r := InsertBy(leq, front, x);
        forall i | 0 <= i < |r| ensures leq(r[i], last) {
          assert r[i] in multiset(r);
          if r[i] != x {
            assert r[i] in front;
          }
        }
      }
    }
  }

  lemma {:induction false} SortByCounts<T>(leq: (T, T) -> bool, xs: seq<T>)
    ensures multiset(SortBy(leq, xs)) == multiset(xs)
  {
    if xs != [] {
      var front, last := xs[..|xs| - 1], xs[|xs| - 1];
      SortByCounts(leq, front);
      InsertByCounts(leq, SortBy(leq, front), last);
      assert xs == front + [last];
    }
  }

  lemma {:induction false} SortBySorts<T(!new)>(leq: (T, T) -> bool, xs: seq<T>)
    requires TotalPreorder(leq)
    ensures SortedBy(leq, SortBy(leq, xs))
  {
    if xs != [] {
      hide SortedBy, TotalPreorder;
      SortBySorts(leq, xs[..|xs| - 1]);
      InsertByKeeps(leq, SortBy(leq, xs[..|xs| - 1]), xs[|xs| - 1]);
    } else {
      assert SortedBy(leq, SortBy(leq, xs));
    }
  }

  /** The order of strings by their characters, a prefix first. */
  predicate StringLeq(a: string, b: string) {
    a == "" || (b != "" && (a[0] < b[0] || (a[0] == b[0] && StringLeq(a[1..], b[1..]))))
  }

  lemma {:induction false} StringLeqTotal(a: string, b: string)
    ensures StringLeq(a, b) || StringLeq(b, a)
    ensures StringLeq(a, b) && StringLeq(b, a) ==> a == b
  {
    if a != "" && b != "" && a[0] == b[0] {
      StringLeqTotal(a[1..], b[1..]);
      assert a == [a[0]] + a[1..] && b == [b[0]] + b[1..];
    }
  }

  lemma {:induction false} StringLeqTransitive(a: string, b: string, c: string)
    requires StringLeq(a, b) && StringLeq(b, c)
    ensures StringLeq(a, c)
  {
    if a != "" && a[0] == b[0] == c[0] {
      StringLeqTransitive(a[1..], b[1..], c[1..]);
    }
  }
}
