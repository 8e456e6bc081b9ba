/**
 * Which tools the model may see: deferred tools, the blocks that surface them,
 * and the folding of those blocks out of a request body.
 */
module ToolVisibility {
  import opened Common
  import opened Json
  import opened Sorting

  const DEFERRED_TOOL_PLACEHOLDER := "DeferredToolPlaceholder"

  type Fields = map<string, Json>

  /** How a caller's representation of a tool is read and built. */
  datatype Shape<!T> = Shape(nameOf: T -> string, deferredOf: T -> bool, fromDefinition: Fields -> Option<T>)

  /** The tool of a block, without the wrapper around a full definition. */
  function AdditionTool(tool: Fields): (inner: Fields)
    ensures "type" in tool && tool["type"] == JStr("tool_definition") && "definition" in tool && tool["definition"].JObj? ==>
              tool["definition"] == JObj(inner)
    ensures "type" !in tool || tool["type"] != JStr("tool_definition") || "definition" !in tool || !tool["definition"].JObj? ==> inner == tool
  {
    if "type" in tool && tool["type"] == JStr("tool_definition") && "definition" in tool && tool["definition"].JObj?
    then tool["definition"].fields
    else tool
  }

  /** The name a block refers to, when it is a name. */
  function NameIn(raw: Fields): (name: Option<string>)
    ensures name.Some? ==> "name" in AdditionTool(raw) && AdditionTool(raw)["name"] == JStr(name.value)
    ensures name.None? ==> "name" !in AdditionTool(raw) || !AdditionTool(raw)["name"].JStr?
  {
    var tool := AdditionTool(raw);
    if "name" in tool && tool["name"].JStr? then Some(tool["name"].chars) else None
  }

  /** The tool a block defines: nothing for a mere reference or an invalid definition. */
  function BuiltFrom<T>(shape: Shape<T>, raw: Fields): (built: Option<T>)
    ensures "name" in AdditionTool(raw) && AdditionTool(raw)["name"].JStr? && "input_schema" in AdditionTool(raw) ==>
              built == shape.fromDefinition(AdditionTool(raw))
    ensures built.Some? ==> "name" in AdditionTool(raw) && AdditionTool(raw)["name"].JStr? && "input_schema" in AdditionTool(raw)
  {
    if NameIn(raw).Some? && "input_schema" in AdditionTool(raw) then shape.fromDefinition(AdditionTool(raw)) else None
  }

  // ----- what the blocks say

  function Referenced(additions: seq<Fields>): set<string> {
    set i | 0 <= i < |additions| && NameIn(additions[i]).Some? :: NameIn(additions[i]).value
  }

  /** Names of blocks whose definition is invalid, block by block. */
  function Invalid<T>(shape: Shape<T>, additions: seq<Fields>): seq<string> {
    if additions == [] then []
    else
      var last := additions[|additions| - 1];
      Invalid(shape, additions[..|additions| - 1])
      + (if NameIn(last).Some? && "input_schema" in AdditionTool(last) && BuiltFrom(shape, last).None? then [NameIn(last).value] else [])
  }

  datatype Definition<+T> = Definition(name: string, tool: T)

  function PlaceIn<T>(entries: seq<Definition<T>>, name: string): (p: nat)
    ensures p <= |entries| && (p < |entries| ==> entries[p].name == name)
    ensures forall q :: 0 <= q < p ==> entries[q].name != name
  {
    if entries == [] then 0
    else if entries[0].name == name then 0
    else 1 + PlaceIn(entries[1..], name)
  }

  /** A dictionary entry written: in its old place, or at the end. */
  function Put<T>(entries: seq<Definition<T>>, name: string, tool: T): seq<Definition<T>> {
    var p := PlaceIn(entries, name);
    if p < |entries| then entries[p := Definition(name, tool)] else entries + [Definition(name, tool)]
  }

  /** The definitions the blocks carry, by first appearance, the latest of a name. */
  function Defined<T>(shape: Shape<T>, additions: seq<Fields>): seq<Definition<T>> {
    if additions == [] then []
    else
      var front, last := Defined(shape, additions[..|additions| - 1]), additions[|additions| - 1];
      if BuiltFrom(shape, last).Some? then Put(front, NameIn(last).value, BuiltFrom(shape, last).value) else front
  }

  // ----- the rule

  predicate Shows<T>(shape: Shape<T>, referenced: set<string>, tool: T) {
    shape.nameOf(tool) != DEFERRED_TOOL_PLACEHOLDER && (!shape.deferredOf(tool) || shape.nameOf(tool) in referenced)
  }

  function Own<T>(shape: Shape<T>, referenced: set<string>, tools: seq<T>): seq<T> {
    if tools == [] then []
    else
      Own(shape, referenced, tools[..|tools| - 1])
      + (if Shows(shape, referenced, tools[|tools| - 1]) then [tools[|tools| - 1]] else [])
  }

  predicate Knows<T>(shape: Shape<T>, tools: seq<T>, name: string) {
    exists i :: 0 <= i < |tools| && shape.nameOf(tools[i]) == name
  }

  function Supplied<T>(shape: Shape<T>, tools: seq<T>, defined: seq<Definition<T>>): seq<T> {
    if defined == [] then []
    else
      var last := defined[|defined| - 1];
      Supplied(shape, tools, defined[..|defined| - 1])
      + (if !Knows(shape, tools, last.name) && last.name != DEFERRED_TOOL_PLACEHOLDER then [last.tool] else [])
  }

  predicate Defines<T(==)>(defined: seq<Definition<T>>, name: string) {
    exists i :: 0 <= i < |defined| && defined[i].name == name
  }

  /** Names referenced that nothing defines. */
  function Missing<T(==)>(shape: Shape<T>, tools: seq<T>, additions: seq<Fields>): set<string> {
    set name | name in Referenced(additions) && !Knows(shape, tools, name) && !Defines(Defined(shape, additions), name)
  }

  function Alphabetical(): (string, string) -> bool {
    (a: string, b: string) => StringLeq(a, b)
  }

  /** What is visible: the request's own tools, then those supplied by blocks. */
  datatype Visibility<T> = Visibility(own: seq<T>, supplied: seq<T>, invalid: seq<string>, unresolved: seq<string>) {
    function Visible(): seq<T> {
      own + supplied
    }
  }

  ghost predicate Resolves<T>(shape: Shape<T>, tools: seq<T>, additions: seq<Fields>, v: Visibility<T>) {
    && v.own == Own(shape, Referenced(additions), tools)
    && v.supplied == Supplied(shape, tools, Defined(shape, additions))
    && v.invalid == Invalid(shape, additions)
    && multiset(v.unresolved) == multiset(Missing(shape, tools, additions)) && SortedBy(Alphabetical(), v.unresolved)
  }

  method ResolveVisible<T(==)>(shape: Shape<T>, tools: seq<T>, additions: seq<Fields>) returns (v: Visibility<T>)
    ensures Resolves(shape, tools, additions, v)
  {
    var referenced: set<string> := {};
    var defined: seq<Definition<T>> := [];
    var invalid: seq<string> := [];
    var i := 0;
    while i < |additions|
      invariant 0 <= i <= |additions|
      invariant referenced == Referenced(additions[..i])
      invariant defined == Defined(shape, additions[..i])
      invariant invalid == Invalid(shape, additions[..i])
    {
      ReferencedPush(additions, i);
      assert additions[..i + 1][..i] == additions[..i];
      var raw := additions[i];
      i := i + 1;
      var tool := AdditionTool(raw);
      if "name" !in tool || !tool["name"].JStr? {
        continue;
      }
      var name := tool["name"].chars;
      referenced := referenced + {name};
      if "input_schema" !in tool {
        continue;
      }
      var built := shape.fromDefinition(tool);
      if built.None? {
        invalid := invalid + [name];
      } else {
        defined := Put(defined, name, built.value);
      }
    }
    assert additions[..i] == additions;
    var unresolved := SortedNames(Missing(shape, tools, additions));
    v := Visibility(Own(shape, referenced, tools), Supplied(shape, tools, defined), invalid, unresolved);
  }

  lemma ReferencedPush(additions: seq<Fields>, i: nat)
    requires i < |additions|
    ensures Referenced(additions[..i + 1]) ==
            Referenced(additions[..i]) + (if NameIn(additions[i]).Some? then {NameIn(additions[i]).value} else {})
  {
    var before, after := additions[..i], additions[..i + 1];
    forall name ensures name in Referenced(after) <==>
        name in Referenced(before) || NameIn(additions[i]) == Some(name)
    {
      if name in Referenced(before) {
        var k :| 0 <= k < i && NameIn(before[k]) == Some(name);
        assert NameIn(after[k]) == Some(name);
      }
      if NameIn(additions[i]) == Some(name) {
        assert NameIn(after[i]) == Some(name);
      }
      if name in Referenced(after) {
        var k :| 0 <= k < i + 1 && NameIn(after[k]) == Some(name);
        if k < i {
          assert NameIn(before[k]) == Some(name);
        }
      }
    }
  }

  /** The names of a set, in order. */
  method SortedNames(names: set<string>) returns (sorted: seq<string>)
    ensures multiset(sorted) == multiset(names) && SortedBy(Alphabetical(), sorted)
  {
    var rest := names;
    var listed: seq<string> := [];
    while rest != {}
      invariant rest <= names && multiset(listed) + multiset(rest) == multiset(names)
      decreases |rest|
    {
      var name :| name in rest;
      listed := listed + [name];
      rest := rest - {name};
    }
    AlphabeticalOrders();
    SortByCounts(Alphabetical(), listed);
    SortBySorts(Alphabetical(), listed);
    sorted := SortBy(Alphabetical(), listed);
  }

  lemma AlphabeticalOrders()
    ensures TotalPreorder(Alphabetical())
  {
    var leq := Alphabetical();
    forall a, b ensures leq(a, b) || leq(b, a) {
      StringLeqTotal(a, b);
    }
    forall a, b, c | leq(a, b) && leq(b, c) ensures leq(a, c) {
      StringLeqTransitive(a, b, c);
    }
  }

  // ----- the rule, read off

  /** Where the visible own tools stand in the request. */
  function Places<T>(shape: Shape<T>, referenced: set<string>, tools: seq<T>): seq<nat> {
    if tools == [] then []
    else
      Places(shape, referenced, tools[..|tools| - 1])
      + (if Shows(shape, referenced, tools[|tools| - 1]) then [|tools| - 1] else [])
  }

  /**
   * Exactly the tools of the request that are no placeholder and either not deferred or
   * referenced by a block are visible, each as often as it stands there, in the request's order.
   */
  lemma {:induction false} OwnAreExactly<T>(shape: Shape<T>, additions: seq<Fields>, tools: seq<T>)
    ensures var own, places := Own(shape, Referenced(additions), tools), Places(shape, Referenced(additions), tools);
            && |own| == |places| <= |tools|
            && (forall k :: 0 <= k < |own| ==> places[k] < |tools| && own[k] == tools[places[k]])
            && (forall j, k :: 0 <= j < k < |places| ==> places[j] < places[k])
            && (forall p: nat :: p < |tools| ==>
                  (p in places <==>
                     && shape.nameOf(tools[p]) != "DeferredToolPlaceholder"
                     && (!shape.deferredOf(tools[p]) || exists i :: 0 <= i < |additions| && NameIn(additions[i]) == Some(shape.nameOf(tools[p])))))
  {
    if tools != [] {
      OwnAreExactly(shape, additions, tools[..|tools| - 1]);
    }
  }

  predicate NamesApart<T>(entries: seq<Definition<T>>) {
    forall i, j :: 0 <= i < j < |entries| ==> entries[i].name != entries[j].name
  }

  /** Writing an entry keeps names apart; the name has the new tool and the others keep theirs. */
  lemma PutMeans<T>(entries: seq<Definition<T>>, name: string, tool: T)
    requires NamesApart(entries)
    ensures NamesApart(Put(entries, name, tool))
    ensures forall e :: e in Put(entries, name, tool) <==> e == Definition(name, tool) || (e in entries && e.name != name)
  {
    var p, after := PlaceIn(entries, name), Put(entries, name, tool);
    assert after[p] == Definition(name, tool);
    forall e ensures e in after <==> e == Definition(name, tool) || (e in entries && e.name != name) {
      if e in entries && e.name != name {
        var i :| 0 <= i < |entries| && entries[i] == e;
        assert after[i] == e;
      }
      if e in after && e != Definition(name, tool) {
        var i :| 0 <= i < |after| && after[i] == e;
        assert i != p && entries[i] == e;
      }
    }
  }

  /** The last block that validly defines a name. */
  predicate DefinedBy<T(==)>(shape: Shape<T>, additions: seq<Fields>, i: nat, name: string) {
    && i < |additions| && NameIn(additions[i]) == Some(name) && BuiltFrom(shape, additions[i]).Some?
    && forall j :: i < j < |additions| ==> NameIn(additions[j]) != Some(name) || BuiltFrom(shape, additions[j]).None?
  }

  /** Every name is defined once, by the last block that validly defines it. */
  lemma {:induction false} DefinedMeans<T>(shape: Shape<T>, additions: seq<Fields>)
    ensures var defined := Defined(shape, additions);
            && NamesApart(defined)
            && (forall e :: e in defined <==>
                  exists i: nat :: DefinedBy(shape, additions, i, e.name) && BuiltFrom(shape, additions[i]) == Some(e.tool))
  {
    if additions != [] {
      var front, last := additions[..|additions| - 1], additions[|additions| - 1];
      DefinedMeans(shape, front);
      if BuiltFrom(shape, last).Some? {
        PutMeans(Defined(shape, front), NameIn(last).value, BuiltFrom(shape, last).value);
      }
      forall e: Definition<T>
        ensures (exists i: nat :: DefinedBy(shape, additions, i, e.name) && BuiltFrom(shape, additions[i]) == Some(e.tool)) <==>
                (if NameIn(last) == Some(e.name) && BuiltFrom(shape, last).Some? then BuiltFrom(shape, last) == Some(e.tool)
                 else exists i: nat :: DefinedBy(shape, front, i, e.name) && BuiltFrom(shape, front[i]) == Some(e.tool))
      {
        LastDefines(shape, additions, e);
      }
    }
  }

  lemma LastDefines<T>(shape: Shape<T>, additions: seq<Fields>, e: Definition<T>)
    requires additions != []
    ensures var front, last := additions[..|additions| - 1], additions[|additions| - 1];
            (exists i: nat :: DefinedBy(shape, additions, i, e.name) && BuiltFrom(shape, additions[i]) == Some(e.tool)) <==>
            (if NameIn(last) == Some(e.name) && BuiltFrom(shape, last).Some? then BuiltFrom(shape, last) == Some(e.tool)
             else exists i: nat :: DefinedBy(shape, front, i, e.name) && BuiltFrom(shape, front[i]) == Some(e.tool))
  {
    var n := |additions| - 1;
    var front, last := additions[..n], additions[n];
    if NameIn(last) == Some(e.name) && BuiltFrom(shape, last).Some? {
      assert DefinedBy(shape, additions, n, e.name);
      forall i: nat | DefinedBy(shape, additions, i, e.name) ensures i == n {
      }
    } else {
      forall i: nat ensures DefinedBy(shape, additions, i, e.name) <==> DefinedBy(shape, front, i, e.name) {
      }
    }
  }

  /** The first block that validly defines a name. */
  predicate BeginsAt<T>(shape: Shape<T>, additions: seq<Fields>, i: nat, name: string) {
    && i < |additions| && NameIn(additions[i]) == Some(name) && BuiltFrom(shape, additions[i]).Some?
    && forall j :: 0 <= j < i ==> NameIn(additions[j]) != Some(name) || BuiltFrom(shape, additions[j]).None?
  }

  /** Definitions stand in the order in which their names were first defined, also when a later block replaced one. */
  lemma {:induction false} DefinedInOrder<T>(shape: Shape<T>, additions: seq<Fields>, j: nat, k: nat, p: nat, q: nat)
    requires j < k < |Defined(shape, additions)|
    requires BeginsAt(shape, additions, p, Defined(shape, additions)[j].name)
    requires BeginsAt(shape, additions, q, Defined(shape, additions)[k].name)
    ensures p < q
  {
    hide BeginsAt, DefinedBy, BuiltFrom;
    var n := |additions| - 1;
    var front, was, defined := additions[..n], Defined(shape, additions[..n]), Defined(shape, additions);
    assert defined[j].name == was[j].name;
    BegunBefore(shape, additions, p, was[j].name);
    if k < |was| {
      assert defined[k].name == was[k].name;
      BegunBefore(shape, additions, q, was[k].name);
      DefinedInOrder(shape, front, j, k, p, q);
    } else {
      NewNamesLast(shape, additions, q);
      BeginsWithin(shape, front, p, was[j].name);
    }
  }

  lemma BeginsWithin<T>(shape: Shape<T>, additions: seq<Fields>, p: nat, name: string)
    requires BeginsAt(shape, additions, p, name)
    ensures p < |additions|
  {
  }

  /** A name defined by an earlier block begins with an earlier block. */
  lemma BegunBefore<T>(shape: Shape<T>, additions: seq<Fields>, p: nat, name: string)
    requires additions != [] && BeginsAt(shape, additions, p, name)
    requires Defines(Defined(shape, additions[..|additions| - 1]), name)
    ensures BeginsAt(shape, additions[..|additions| - 1], p, name)
  {
    hide BuiltFrom, NameIn;
    var front := additions[..|additions| - 1];
    DefinedMeans(shape, front);
    var e :| e in Defined(shape, front) && e.name == name;
    var i: nat :| DefinedBy(shape, front, i, e.name);
    assert additions[i] == front[i];
    assert p <= i;
    assert front[p] == additions[p];
  }

  /** A definition added by the last block begins there. */
  lemma NewNamesLast<T>(shape: Shape<T>, additions: seq<Fields>, q: nat)
    requires additions != []
    requires |Defined(shape, additions)| > |Defined(shape, additions[..|additions| - 1])|
    requires BeginsAt(shape, additions, q, Defined(shape, additions)[|Defined(shape, additions)| - 1].name)
    ensures q == |additions| - 1
  {
    hide BuiltFrom, NameIn;
    var was, defined := Defined(shape, additions[..|additions| - 1]), Defined(shape, additions);
    if q < |additions| - 1 {
      BeginsFront(shape, additions, q, defined[|defined| - 1].name);
      assert false;
    }
  }

  /** A name that begins with an earlier block is among what the earlier blocks define. */
  lemma BeginsFront<T>(shape: Shape<T>, additions: seq<Fields>, q: nat, name: string)
    requires additions != [] && q < |additions| - 1 && BeginsAt(shape, additions, q, name)
    ensures Defines(Defined(shape, additions[..|additions| - 1]), name)
  {
    var front := additions[..|additions| - 1];
    assert front[q] == additions[q];
    DefinedSome(shape, front, q, name);
  }

  lemma {:induction false} DefinedSome<T>(shape: Shape<T>, additions: seq<Fields>, q: nat, name: string)
    requires q < |additions| && NameIn(additions[q]) == Some(name) && BuiltFrom(shape, additions[q]).Some?
    ensures Defines(Defined(shape, additions), name)
  {
    var n := |additions| - 1;
    var was, defined := Defined(shape, additions[..n]), Defined(shape, additions);
    if q == n {
      assert defined[PlaceIn(was, name)].name == name;
    } else {
      DefinedSome(shape, additions[..n], q, name);
      var i :| 0 <= i < |was| && was[i].name == name;
      assert defined[i].name == name;
    }
  }

  /** Where the supplied definitions stand among those the blocks carry. */
  function SuppliedPlaces<T>(shape: Shape<T>, tools: seq<T>, defined: seq<Definition<T>>): seq<nat> {
    if defined == [] then []
    else
      var last := defined[|defined| - 1];
      SuppliedPlaces(shape, tools, defined[..|defined| - 1])
      + (if !Knows(shape, tools, last.name) && last.name != DEFERRED_TOOL_PLACEHOLDER then [|defined| - 1] else [])
  }

  /**
   * Supplied are exactly the definitions of names the request does not define, the placeholder
   * never, each as often as it is defined, in the order of the definitions.
   */
  lemma {:induction false} SuppliedAreExactly<T>(shape: Shape<T>, tools: seq<T>, defined: seq<Definition<T>>)
    ensures var supplied, places := Supplied(shape, tools, defined), SuppliedPlaces(shape, tools, defined);
            && |supplied| == |places| <= |defined|
            && (forall k :: 0 <= k < |supplied| ==> places[k] < |defined| && supplied[k] == defined[places[k]].tool)
            && (forall j, k :: 0 <= j < k < |places| ==> places[j] < places[k])
            && (forall p: nat :: p < |defined| ==>
                  (p in places <==>
                     && defined[p].name != "DeferredToolPlaceholder"
                     && forall i :: 0 <= i < |tools| ==> shape.nameOf(tools[i]) != defined[p].name))
  {
    if defined != [] {
      SuppliedAreExactly(shape, tools, defined[..|defined| - 1]);
    }
  }

  /** A block that names a tool and has a schema, from which no tool can be built. */
  function IsInvalid<T>(shape: Shape<T>): Fields -> bool {
    (raw: Fields) =>
      && "name" in AdditionTool(raw) && AdditionTool(raw)["name"].JStr? && "input_schema" in AdditionTool(raw)
      && shape.fromDefinition(AdditionTool(raw)).None?
  }

  /** The invalid names are those of the invalid blocks, block by block. */
  lemma {:induction false} InvalidAreExactly<T>(shape: Shape<T>, additions: seq<Fields>)
    ensures var invalid, blocks := Invalid(shape, additions), Where(additions, IsInvalid(shape));
            && |invalid| == |blocks|
            && forall j :: 0 <= j < |blocks| ==> "name" in AdditionTool(blocks[j]) && AdditionTool(blocks[j])["name"] == JStr(invalid[j])
  {
    if additions != [] {
      var front, last := additions[..|additions| - 1], additions[|additions| - 1];
      InvalidAreExactly(shape, front);
      WherePush(front, last, IsInvalid(shape));
      LastApart(additions);
    }
  }

  /** Unresolved are exactly the names a block refers to that neither the request nor any block defines. */
  lemma UnresolvedAreExactly<T(!new)>(shape: Shape<T>, tools: seq<T>, additions: seq<Fields>, name: string)
    ensures name in Missing(shape, tools, additions) <==>
            && (exists i :: 0 <= i < |additions| && NameIn(additions[i]) == Some(name))
            && (forall i :: 0 <= i < |tools| ==> shape.nameOf(tools[i]) != name)
            && (forall i: nat :: !DefinesAt(shape, additions, i, name))
  {
    DefinesIff(shape, additions, name);
  }

  lemma PutDefines<T>(entries: seq<Definition<T>>, name: string, tool: T, other: string)
    ensures Defines(Put(entries, name, tool), other) <==> other == name || Defines(entries, other)
  {
    var p, after := PlaceIn(entries, name), Put(entries, name, tool);
    assert after[p].name == name;
    if i :| 0 <= i < |entries| && entries[i].name == other {
      assert after[i].name == other;
    }
    if i :| 0 <= i < |after| && after[i].name == other {
      assert i != p ==> entries[i].name == other;
    }
  }

  /** A block that validly defines a name. */
  predicate DefinesAt<T>(shape: Shape<T>, additions: seq<Fields>, i: nat, name: string) {
    i < |additions| && NameIn(additions[i]) == Some(name) && BuiltFrom(shape, additions[i]).Some?
  }

  lemma {:induction false} DefinesIff<T>(shape: Shape<T>, additions: seq<Fields>, name: string)
    ensures Defines(Defined(shape, additions), name) <==> exists i: nat :: DefinesAt(shape, additions, i, name)
  {
    if additions != [] {
      var n := |additions| - 1;
      var front, last := additions[..n], additions[n];
      DefinesIff(shape, front, name);
      if BuiltFrom(shape, last).Some? {
        PutDefines(Defined(shape, front), NameIn(last).value, BuiltFrom(shape, last).value, name);
      }
      if i: nat :| DefinesAt(shape, additions, i, name) {
        assert i < n ==> DefinesAt(shape, front, i, name);
      }
      if i: nat :| DefinesAt(shape, front, i, name) {
        assert DefinesAt(shape, additions, i, name);
      }
      assert DefinesAt(shape, additions, n, name) <==> NameIn(last) == Some(name) && BuiltFrom(shape, last).Some?;
    }
  }
}
