/** Small datatypes and helpers shared by the models. */
module Common {

  datatype Option<+T> = None | Some(value: T) {
    function GetOr(default: T): T {
      if Some? then value else default
    }
  }

  datatype Result<+T, +E> = Ok(value: T) | Err(error: E)

  function MaxR(a: real, b: real): real {
    if a > b then a else b
  }

  function MinR(a: real, b: real): real {
    if a < b then a else b
  }

  /** Least integer that is not below `x`. */
  function Ceil(x: real): int {
    -((-x).Floor)
  }

  lemma Associative<T>(a: seq<T>, b: seq<T>, c: seq<T>)
    ensures (a + b) + c == a + (b + c)
  {
  }

  lemma NoneAdded<T>(s: seq<T>)
    ensures s + [] == s && [] + s == s
  {
  }

  lemma FirstApart<T>(s: seq<T>)
    requires s != []
    ensures s == [s[0]] + s[1..]
  {
  }

  lemma LastApart<T>(s: seq<T>)
    requires s != []
    ensures s == s[..|s| - 1] + [s[|s| - 1]]
  {
  }

  /** The items with a property, in order. */
  function Where<T>(items: seq<T>, has: T -> bool): seq<T> {
    if items == [] then [] else (if has(items[0]) then [items[0]] else []) + Where(items[1..], has)
  }

  lemma {:induction false} WhereSome<T>(items: seq<T>, has: T -> bool)
    ensures Where(items, has) != [] <==> exists j :: 0 <= j < |items| && has(items[j])
  {
    if items != [] {
      WhereSome(items[1..], has);
      if has(items[0]) {
        assert Where(items, has)[0] == items[0];
      } else if j :| 0 <= j < |items| && has(items[j]) {
        assert items[1..][j - 1] == items[j];
      }
    }
  }

  lemma WhereFirst<T>(first: T, rest: seq<T>, has: T -> bool)
    ensures Where([first] + rest, has) == (if has(first) then [first] else []) + Where(rest, has)
  {
    assert ([first] + rest)[1..] == rest;
  }

  lemma WhereOne<T>(item: T, has: T -> bool)
    ensures Where([], has) == [] && Where([item], has) == if has(item) then [item] else []
  {
    assert [item][1..] == [];
  }

  lemma {:induction false} WherePush<T>(items: seq<T>, last: T, has: T -> bool)
    ensures Where(items + [last], has) == Where(items, has) + (if has(last) then [last] else [])
  {
    hide Where;
    WhereOne(last, has);
    if items == [] {
      NoneAdded([last]);
      NoneAdded(Where([last], has));
    } else {
      FirstApart(items);
      Associative([items[0]], items[1..], [last]);
      WhereFirst(items[0], items[1..] + [last], has);
      WhereFirst(items[0], items[1..], has);
      WherePush(items[1..], last, has);
      Associative(if has(items[0]) then [items[0]] else [], Where(items[1..], has), if has(last) then [last] else []);
    }
  }
}
