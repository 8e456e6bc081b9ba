/**
 * The grammar of JSON (RFC 8259, sections 2 to 7) as the texts it generates.
 * The reader is proved against it both ways: every text of the grammar is
 * read, to the value it means, and everything that is read is such a text.
 */
module JsonGrammar {
  import opened Common
  import opened Text
  import opened Json

  // ----- strings

  /** One character of a string as it is written. */
  datatype Glyph = Plain(c: char) | Short(letter: char) | Code(a: char, b: char, c: char, d: char)

  predicate IsHex(c: char) {
    '0' <= c <= '9' || 'a' <= c <= 'f' || 'A' <= c <= 'F'
  }

  function HexValue(c: char): (n: nat)
    requires IsHex(c)
    ensures n < 16
  {
    (if c <= '9' then c as int - 48 else if c <= 'F' then c as int - 55 else c as int - 87) as nat
  }

  predicate GlyphOk(g: Glyph) {
    match g
    case Plain(c) => c != '"' && c != '\\' && c as int >= 32
    case Short(letter) => letter in "\"\\/bfnrt"
    case Code(a, b, c, d) => IsHex(a) && IsHex(b) && IsHex(c) && IsHex(d)
  }

  function GlyphText(g: Glyph): string {
    match g
    case Plain(c) => [c]
    case Short(letter) => ['\\', letter]
    case Code(a, b, c, d) => ['\\', 'u', a, b, c, d]
  }

  /** The character a glyph stands for; a surrogate half stands for a private-use character of its own. */
  function GlyphChar(g: Glyph): char
    requires GlyphOk(g)
  {
    match g
    case Plain(c) => c
    case Short(letter) =>
      (match letter
       case 'b' => 8 as char
       case 'f' => 12 as char
       case 'n' => 10 as char
       case 'r' => 13 as char
       case 't' => 9 as char
       case _ => letter)
    case Code(a, b, c, d) => CharOfCode(CodeOf(a, b, c, d))
  }

  function CodeOf(a: char, b: char, c: char, d: char): (code: nat)
    requires IsHex(a) && IsHex(b) && IsHex(c) && IsHex(d)
    ensures code < 65536
  {
    4096 * HexValue(a) + 256 * HexValue(b) + 16 * HexValue(c) + HexValue(d)
  }

  function CharOfCode(code: nat): char
    requires code < 65536
  {
    if 55296 <= code <= 57343 then (983040 + code) as char else code as char
  }

  predicate AllOk(glyphs: seq<Glyph>) {
    forall k :: 0 <= k < |glyphs| ==> GlyphOk(glyphs[k])
  }

  function Spelling(glyphs: seq<Glyph>): string {
    if glyphs == [] then "" else GlyphText(glyphs[0]) + Spelling(glyphs[1..])
  }

  function Meaning(glyphs: seq<Glyph>): string
    requires AllOk(glyphs)
  {
    if glyphs == [] then "" else [GlyphChar(glyphs[0])] + Meaning(glyphs[1..])
  }

  predicate IsSpace(t: string) {
    forall k :: 0 <= k < |t| ==> t[k] == ' ' || t[k] == '\t' || t[k] == '\n' || t[k] == '\r'
  }

  // ----- numbers and words

  predicate DigitsIn(t: string, from: nat, until: nat) {
    from < until <= |t| && forall k :: from <= k < until ==> '0' <= t[k] <= '9'
  }

  /** A sign up to `i`, a whole part without superfluous zeros up to `j`, maybe a fraction up to `k`, maybe an exponent. */
  predicate IsNumeral(t: string, i: nat, j: nat, k: nat) {
    && (i == 0 || (i == 1 && t != "" && t[0] == '-'))
    && DigitsIn(t, i, j) && (t[i] == '0' ==> j == i + 1)
    && (k == j || (j < |t| && t[j] == '.' && DigitsIn(t, j + 1, k)))
    && (k == |t| || IsPower(t, k))
  }

  predicate IsPower(t: string, k: nat) {
    && k < |t| && (t[k] == 'e' || t[k] == 'E')
    && (DigitsIn(t, k + 1, |t|) || (k + 1 < |t| && (t[k + 1] == '+' || t[k + 1] == '-') && DigitsIn(t, k + 2, |t|)))
  }

  ghost predicate InNumberForm(t: string) {
    exists i, j, k :: IsNumeral(t, i, j, k)
  }

  /** The three literals, what Python adds to them, and the numbers. */
  ghost predicate IsWord(t: string) {
    t in {"null", "true", "false", "NaN", "Infinity", "-Infinity"} || InNumberForm(t)
  }

  function WordValue(t: string): Json {
    if t == "null" then JNull else if t == "true" then JBool(true) else if t == "false" then JBool(false) else JNum(t)
  }

  // ----- values

  /** A text, with the white space around its parts. */
  datatype Tree =
    | Word(text: string)
    | Quoted(glyphs: seq<Glyph>)
    | EmptyArray(space: string)
    | Array(items: Items)
    | EmptyObject(space: string)
    | Object(members: Members)

  datatype Items = LastItem(before: string, tree: Tree, after: string) | NextItem(before: string, tree: Tree, after: string, rest: Items)

  datatype Members =
    | LastMember(before: string, key: seq<Glyph>, keyEnd: string, colonEnd: string, tree: Tree, after: string)
    | NextMember(before: string, key: seq<Glyph>, keyEnd: string, colonEnd: string, tree: Tree, after: string, rest: Members)

  ghost predicate TreeOk(t: Tree) {
    match t
    case Word(text) => IsWord(text)
    case Quoted(glyphs) => AllOk(glyphs)
    case EmptyArray(space) => IsSpace(space)
    case Array(items) => ItemsOk(items)
    case EmptyObject(space) => IsSpace(space)
    case Object(members) => MembersOk(members)
  }

  ghost predicate ItemsOk(items: Items) {
    IsSpace(items.before) && TreeOk(items.tree) && IsSpace(items.after) && (items.NextItem? ==> ItemsOk(items.rest))
  }

  ghost predicate MembersOk(m: Members) {
    && IsSpace(m.before) && AllOk(m.key) && IsSpace(m.keyEnd) && IsSpace(m.colonEnd) && TreeOk(m.tree) && IsSpace(m.after)
    && (m.NextMember? ==> MembersOk(m.rest))
  }

  function TreeText(t: Tree): string {
    match t
    case Word(text) => text
    case Quoted(glyphs) => "\"" + (Spelling(glyphs) + "\"")
    case EmptyArray(space) => "[" + (space + "]")
    case Array(items) => "[" + (ItemsText(items) + "]")
    case EmptyObject(space) => "{" + (space + "}")
    case Object(members) => "{" + (MembersText(members) + "}")
  }

  function ItemsText(items: Items): string {
    items.before + (TreeText(items.tree) + (items.after + if items.NextItem? then "," + ItemsText(items.rest) else ""))
  }

  function KeyText(m: Members): string {
    "\"" + (Spelling(m.key) + ("\"" + (m.keyEnd + (":" + m.colonEnd))))
  }

  function MembersText(m: Members): string {
    m.before + (KeyText(m) + (TreeText(m.tree) + (m.after + if m.NextMember? then "," + MembersText(m.rest) else "")))
  }

  ghost function TreeValue(t: Tree): Json
    requires TreeOk(t)
  {
    match t
    case Word(text) => WordValue(text)
    case Quoted(glyphs) => JStr(Meaning(glyphs))
    case EmptyArray(_) => JArr([])
    case Array(items) => JArr(ItemValues(items))
    case EmptyObject(_) => JObj(map[])
    case Object(members) => JObj(FieldsOf(MemberValues(members)))
  }

  ghost function ItemValues(items: Items): seq<Json>
    requires ItemsOk(items)
  {
    [TreeValue(items.tree)] + if items.NextItem? then ItemValues(items.rest) else []
  }

  ghost function MemberValues(m: Members): seq<(string, Json)>
    requires MembersOk(m)
  {
    [(Meaning(m.key), TreeValue(m.tree))] + if m.NextMember? then MemberValues(m.rest) else []
  }

  // ----- a text inside a longer one

  /** The text stands at position `i`. */
  predicate Stands(s: string, i: nat, t: string) {
    i + |t| <= |s| && s[i..i + |t|] == t
  }

  lemma StandsSplit(s: string, i: nat, a: string, b: string)
    ensures Stands(s, i, a + b) <==> Stands(s, i, a) && Stands(s, i + |a|, b)
  {
    var n := |a| + |b|;
    if Stands(s, i, a + b) {
      assert s[i..i + n][..|a|] == s[i..i + |a|] && s[i..i + n][|a|..] == s[i + |a|..i + n];
      assert (a + b)[..|a|] == a && (a + b)[|a|..] == b;
    }
    if Stands(s, i, a) && Stands(s, i + |a|, b) {
      assert s[i..i + n] == s[i..i + |a|] + s[i + |a|..i + n];
    }
  }

  lemma StandsChar(s: string, i: nat, c: char)
    ensures Stands(s, i, [c]) <==> i < |s| && s[i] == c
  {
    if i < |s| {
      assert s[i..i + 1] == [s[i]];
    }
  }

  // ----- strings

  lemma HexIs(c: char)
    ensures HexOf(c) == if IsHex(c) then Some(HexValue(c)) else None
  {
  }

  lemma EscapeReads(s: string, i: nat, g: Glyph)
    requires GlyphOk(g) && !g.Plain? && Stands(s, i, GlyphText(g))
    ensures ReadEscape(s, i + 1) == At(GlyphChar(g), i + |GlyphText(g)|) && s[i] == '\\'
  {
    hide HexCode, CodeChar, HexValue, IsHex;
    var n := |GlyphText(g)|;
    assert s[i] == s[i..i + n][0] && s[i + 1] == s[i..i + n][1];
    if g.Code? {
      assert forall k :: i <= k < i + n ==> s[k] == s[i..i + n][k - i];
      HexCodeIs(s, i + 2, g.a, g.b, g.c, g.d);
    }
  }

  lemma HexCodeIs(s: string, i: nat, a: char, b: char, c: char, d: char)
    requires i + 4 <= |s| && s[i] == a && s[i + 1] == b && s[i + 2] == c && s[i + 3] == d
    requires IsHex(a) && IsHex(b) && IsHex(c) && IsHex(d)
    ensures HexCode(s, i) == Some(CodeOf(a, b, c, d)) && CodeChar(CodeOf(a, b, c, d)) == CharOfCode(CodeOf(a, b, c, d))
  {
    hide IsHex, HexValue, HexOf;
    HexIs(a);
    HexIs(b);
    HexIs(c);
    HexIs(d);
  }

  lemma GlyphReads(s: string, i: nat, g: Glyph)
    requires GlyphOk(g) && Stands(s, i, GlyphText(g))
    ensures i < |s| && s[i] >= ' ' && s[i] != '"' && GlyphText(g) != ""
    ensures (if s[i] == '\\' then ReadEscape(s, i + 1) else At(s[i], i + 1)) == At(GlyphChar(g), i + |GlyphText(g)|)
  {
    hide ReadEscape;
    if g.Plain? {
      StandsChar(s, i, g.c);
    } else {
      EscapeReads(s, i, g);
    }
  }

  lemma {:induction false} StringReads(s: string, i: nat, glyphs: seq<Glyph>)
    requires AllOk(glyphs) && Stands(s, i, Spelling(glyphs) + "\"")
    ensures i <= |s| && ReadString(s, i) == At(Meaning(glyphs), i + |Spelling(glyphs)| + 1)
    decreases |glyphs|
  {
    hide GlyphText, GlyphChar, GlyphOk, ReadEscape, Stands;
    StandsChar(s, i, '"');
    if glyphs != [] {
      var g := glyphs[0];
      var n := |GlyphText(g)|;
      Associative(GlyphText(g), Spelling(glyphs[1..]), "\"");
      StandsSplit(s, i, GlyphText(g), Spelling(glyphs[1..]) + "\"");
      StringReads(s, i + n, glyphs[1..]);
      GlyphReads(s, i, g);
    } else {
      assert Spelling(glyphs) + "\"" == ['"'];
    }
  }

  lemma EscapeWrote(s: string, i: nat) returns (g: Glyph)
    requires i < |s| && s[i] == '\\' && ReadEscape(s, i + 1).At?
    ensures GlyphOk(g) && !g.Plain? && Stands(s, i, GlyphText(g))
    ensures ReadEscape(s, i + 1) == At(GlyphChar(g), i + |GlyphText(g)|)
  {
    hide HexCode, CodeChar, HexValue, IsHex;
    if s[i + 1] == 'u' {
      AreHex(s, i + 2);
      g := Code(s[i + 2], s[i + 3], s[i + 4], s[i + 5]);
      HexCodeIs(s, i + 2, s[i + 2], s[i + 3], s[i + 4], s[i + 5]);
      assert s[i..i + 6] == ['\\', 'u', s[i + 2], s[i + 3], s[i + 4], s[i + 5]];
    } else {
      g := Short(s[i + 1]);
      assert s[i..i + 2] == ['\\', s[i + 1]];
    }
  }

  lemma AreHex(s: string, i: nat)
    requires i <= |s| && HexCode(s, i).Some?
    ensures i + 4 <= |s| && IsHex(s[i]) && IsHex(s[i + 1]) && IsHex(s[i + 2]) && IsHex(s[i + 3])
  {
    hide IsHex, HexValue, HexOf;
    HexIs(s[i]);
    HexIs(s[i + 1]);
    HexIs(s[i + 2]);
    HexIs(s[i + 3]);
  }

  lemma GlyphWrote(s: string, i: nat) returns (g: Glyph)
    requires i < |s| && s[i] != '"' && ReadString(s, i).At?
    ensures GlyphOk(g) && Stands(s, i, GlyphText(g)) && GlyphText(g) != ""
    ensures (if s[i] == '\\' then ReadEscape(s, i + 1) else At(s[i], i + 1)) == At(GlyphChar(g), i + |GlyphText(g)|)
  {
    hide ReadEscape;
    StandsChar(s, i, s[i]);
    g := Plain(s[i]);
    if s[i] == '\\' {
      g := EscapeWrote(s, i);
    }
  }

  lemma {:induction false} StringWrote(s: string, i: nat) returns (glyphs: seq<Glyph>)
    requires i <= |s| && ReadString(s, i).At?
    ensures AllOk(glyphs) && Stands(s, i, Spelling(glyphs) + "\"")
    ensures ReadString(s, i) == At(Meaning(glyphs), i + |Spelling(glyphs)| + 1)
    decreases |s| - i
  {
    hide GlyphText, GlyphChar, ReadEscape, Stands;
    StandsChar(s, i, s[i]);
    glyphs := [];
    if s[i] != '"' {
      var g := GlyphWrote(s, i);
      var rest := StringWrote(s, i + |GlyphText(g)|);
      StandsSplit(s, i, GlyphText(g), Spelling(rest) + "\"");
      Associative(GlyphText(g), Spelling(rest), "\"");
      glyphs := [g] + rest;
      assert glyphs[0] == g && glyphs[1..] == rest;
    } else {
      assert Spelling(glyphs) + "\"" == ['"'];
    }
  }

  // ----- white space and words

  lemma {:induction false} SpaceReads(s: string, i: nat, space: string)
    requires IsSpace(space) && Stands(s, i, space) && (i + |space| < |s| ==> !IsWs(s[i + |space|]))
    ensures SkipWs(s, i) == i + |space|
    decreases |space|
  {
    if space != "" {
      FirstApart(space);
      StandsSplit(s, i, [space[0]], space[1..]);
      StandsChar(s, i, space[0]);
      SpaceReads(s, i + 1, space[1..]);
    }
  }

  lemma {:induction false} SpaceWrote(s: string, i: nat) returns (space: string)
    requires i <= |s|
    ensures IsSpace(space) && Stands(s, i, space) && SkipWs(s, i) == i + |space|
    ensures SkipWs(s, i) < |s| ==> !IsWs(s[SkipWs(s, i)])
    decreases |s| - i
  {
    space := "";
    if i < |s| && IsWs(s[i]) {
      space := SpaceWrote(s, i + 1);
      StandsChar(s, i, s[i]);
      StandsSplit(s, i, [s[i]], space);
      space := [s[i]] + space;
    }
  }

  lemma {:induction false} WordEnds(s: string, i: nat, word: string)
    requires Stands(s, i, word) && (forall k :: 0 <= k < |word| ==> !IsDelimiter(word[k]))
    requires i + |word| < |s| ==> IsDelimiter(s[i + |word|])
    ensures ScalarEnd(s, i) == i + |word|
    decreases |word|
  {
    if word != "" {
      FirstApart(word);
      StandsSplit(s, i, [word[0]], word[1..]);
      StandsChar(s, i, word[0]);
      WordEnds(s, i + 1, word[1..]);
    }
  }

  lemma {:induction false} DigitsEndIs(t: string, i: nat, n: nat)
    requires i <= n <= |t| && (forall k :: i <= k < n ==> '0' <= t[k] <= '9') && (n < |t| ==> t[n] < '0' || t[n] > '9')
    ensures DigitsEnd(t, i) == n
    decreases n - i
  {
    if i < n {
      DigitsEndIs(t, i + 1, n);
    }
  }

  lemma {:induction false} DigitsEndMeans(t: string, i: nat)
    requires i <= |t|
    ensures var n := DigitsEnd(t, i); (forall k :: i <= k < n ==> '0' <= t[k] <= '9') && (n < |t| ==> t[n] < '0' || t[n] > '9')
    decreases |t| - i
  {
    if i < |t| && IsDigit(t[i]) {
      DigitsEndMeans(t, i + 1);
    }
  }

  lemma PowerIff(t: string, k: nat)
    requires k <= |t|
    ensures IsExponent(t[k..]) <==> IsPower(t, k)
  {
    if k < |t| {
      var x := t[k..];
      var i := if |x| > 1 && (x[1] == '+' || x[1] == '-') then 2 else 1;
      assert forall n :: 0 <= n < |x| ==> x[n] == t[k + n];
      if i < |x| {
        DigitsEndMeans(x, i);
        if DigitsIn(t, k + i, |t|) {
          DigitsEndIs(x, i, |x|);
        }
        if DigitsEnd(x, i) == |x| {
          assert forall n :: k + i <= n < |t| ==> t[n] == x[n - k];
        }
      }
    }
  }

  lemma NumberReads(t: string, i: nat, j: nat, k: nat)
    requires IsNumeral(t, i, j, k)
    ensures IsNumber(t)
  {
    hide IsPower;
    PowerStarts(t, k);
    DigitsEndIs(t, i, j);
    if k > j {
      DigitsEndIs(t, j + 1, k);
    }
    PowerIff(t, k);
  }

  lemma PowerStarts(t: string, k: nat)
    ensures IsPower(t, k) ==> k < |t| && (t[k] == 'e' || t[k] == 'E')
  {
  }

  lemma NumberWrote(t: string)
    requires IsNumber(t)
    ensures InNumberForm(t)
  {
    hide IsPower, IsExponent, DigitsEnd, DigitsIn;
    var i := if t[0] == '-' then 1 else 0;
    var j := if t[i] == '0' then i + 1 else DigitsEnd(t, i);
    var k := if j + 1 < |t| && t[j] == '.' && IsDigit(t[j + 1]) then DigitsEnd(t, j + 1) else j;
    DigitsRun(t, i);
    if j + 1 < |t| && IsDigit(t[j + 1]) {
      DigitsRun(t, j + 1);
    }
    PowerIff(t, k);
    assert IsNumeral(t, i, j, k);
  }

  lemma DigitsRun(t: string, i: nat)
    requires i < |t| && IsDigit(t[i])
    ensures DigitsIn(t, i, DigitsEnd(t, i)) && DigitsIn(t, i, i + 1)
  {
    DigitsEndMeans(t, i);
  }

  lemma WordIff(t: string)
    ensures ScalarOf(t) == Some(WordValue(t)) <==> IsWord(t)
    ensures ScalarOf(t).Some? ==> ScalarOf(t) == Some(WordValue(t))
  {
    if IsNumber(t) {
      NumberWrote(t);
    }
    if InNumberForm(t) {
      var i, j, k :| IsNumeral(t, i, j, k);
      NumberReads(t, i, j, k);
    }
  }

  /** A word is written without any of the characters that end one. */
  lemma WordIsOpen(t: string)
    requires IsWord(t)
    ensures t != "" && forall k :: 0 <= k < |t| ==> !IsDelimiter(t[k])
  {
    if InNumberForm(t) {
      var i, j, k :| IsNumeral(t, i, j, k);
      NumeralIsOpen(t, i, j, k);
    }
  }

  lemma NumeralIsOpen(t: string, i: nat, j: nat, k: nat)
    requires IsNumeral(t, i, j, k)
    ensures t != "" && forall n :: 0 <= n < |t| ==> !IsDelimiter(t[n])
  {
    forall n | 0 <= n < |t| ensures t[n] in "-+.eE" || '0' <= t[n] <= '9' {
    }
  }

  // ----- every text is read

  /** No value starts like white space or what stands between values. */
  lemma TreeStarts(t: Tree)
    requires TreeOk(t)
    ensures TreeText(t) != ""
    ensures !IsWs(TreeText(t)[0]) && TreeText(t)[0] !in "]},:"
    ensures t.Word? ==> !SelfDelimiting(TreeText(t)[0])
  {
    if t.Word? {
      WordIsOpen(t.text);
    }
  }

  /** What stands at the end of a value ends a word. */
  predicate EndsWord(s: string, i: nat) {
    i < |s| ==> IsDelimiter(s[i])
  }

  lemma AfterEnds(s: string, i: nat, after: string, close: char)
    requires IsSpace(after) && Stands(s, i, after + [close]) && IsDelimiter(close) && !IsWs(close)
    ensures EndsWord(s, i) && SkipWs(s, i) == i + |after| < |s| && s[i + |after|] == close
  {
    StandsSplit(s, i, after, [close]);
    StandsChar(s, i + |after|, close);
    SpaceReads(s, i, after);
    if after != "" {
      FirstApart(after);
      StandsSplit(s, i, [after[0]], after[1..]);
      StandsChar(s, i, after[0]);
    }
  }

  lemma WordReads(s: string, i: nat, text: string)
    requires IsWord(text) && Stands(s, i, text) && EndsWord(s, i + |text|)
    ensures i <= |s| && ReadValue(s, i) == At(WordValue(text), i + |text|)
  {
    hide IsWord, ScalarOf, WordValue;
    WordIsOpen(text);
    WordEnds(s, i, text);
    WordIff(text);
    assert s[i] == s[i..i + |text|][0];
  }

  lemma {:induction false} TreeReads(s: string, i: nat, t: Tree)
    requires TreeOk(t) && Stands(s, i, TreeText(t)) && EndsWord(s, i + |TreeText(t)|)
    ensures i <= |s| && ReadValue(s, i) == At(TreeValue(t), i + |TreeText(t)|)
    decreases t, 0
  {
    hide IsWord, Spelling, Meaning, ReadString, ReadItems, ReadMembers, FieldsOf, ScalarOf, WordValue;
    hide ItemsText, MembersText, ItemValues, MemberValues, ItemsOk, MembersOk, Stands;
    match t
    case Word(text) => WordReads(s, i, text);
    case Quoted(glyphs) =>
      Opens(s, i, '"', Spelling(glyphs) + "\"");
      StringReads(s, i + 1, glyphs);
    case EmptyArray(space) =>
      Opens(s, i, '[', space + "]");
      AfterEnds(s, i + 1, space, ']');
    case EmptyObject(space) =>
      Opens(s, i, '{', space + "}");
      AfterEnds(s, i + 1, space, '}');
    case Array(items) =>
      Opens(s, i, '[', ItemsText(items) + "]");
      ItemsStart(s, i + 1, items);
      ItemsRead(s, i + 1, items);
    case Object(members) =>
      Opens(s, i, '{', MembersText(members) + "}");
      MembersStart(s, i + 1, members);
      MembersRead(s, i + 1, members);
  }

  lemma Opens(s: string, i: nat, c: char, rest: string)
    ensures Stands(s, i, [c] + rest) <==> i < |s| && s[i] == c && Stands(s, i + 1, rest)
  {
    StandsSplit(s, i, [c], rest);
    StandsChar(s, i, c);
  }

  lemma ItemsStart(s: string, i: nat, items: Items)
    requires ItemsOk(items) && Stands(s, i, ItemsText(items) + "]")
    ensures SkipWs(s, i) == i + |items.before| < |s| && s[i + |items.before|] != ']'
    ensures Stands(s, i + |items.before|, TreeText(items.tree))
    ensures Stands(s, i + |items.before| + |TreeText(items.tree)|,
                   items.after + if items.NextItem? then "," + (ItemsText(items.rest) + "]") else "]")
  {
    hide TreeText, TreeOk, Stands;
    var value := TreeText(items.tree);
    var rest := if items.NextItem? then "," + (ItemsText(items.rest) + "]") else "]";
    ItemsClose(items);
    StandsSplit(s, i, items.before, value + (items.after + rest));
    StandsSplit(s, i + |items.before|, value, items.after + rest);
    ValueStarts(s, i + |items.before|, items.tree);
    SpaceReads(s, i, items.before);
  }

  lemma ItemsClose(items: Items)
    ensures ItemsText(items) + "]"
         == items.before + (TreeText(items.tree) + (items.after + if items.NextItem? then "," + (ItemsText(items.rest) + "]") else "]"))
  {
    hide TreeText;
  }

  /** A value and the white space behind it, up to what closes it. */
  lemma ItemReads(s: string, i: nat, t: Tree, after: string, close: char)
    requires TreeOk(t) && IsSpace(after) && close in "]},"
    requires Stands(s, i, TreeText(t)) && Stands(s, i + |TreeText(t)|, after + [close])
    ensures var end := i + |TreeText(t)|;
            && i <= |s| && ReadValue(s, i) == At(TreeValue(t), end) && SkipWs(s, end) == end + |after| < |s| && s[end + |after|] == close
            && ReadItem(s, i) == At(TreeValue(t), end + |after|)
    decreases t, 1
  {
    hide TreeText, TreeValue, ReadValue, TreeOk;
    AfterEnds(s, i + |TreeText(t)|, after, close);
    TreeReads(s, i, t);
  }

  lemma ItemsTextLength(items: Items)
    ensures |ItemsText(items)| == |items.before| + |TreeText(items.tree)| + |items.after|
                                  + if items.NextItem? then 1 + |ItemsText(items.rest)| else 0
  {
    hide TreeText;
  }

  lemma {:induction false} ItemsRead(s: string, i: nat, items: Items)
    requires ItemsOk(items) && Stands(s, i, ItemsText(items) + "]")
    ensures i <= |s| && ReadItems(s, SkipWs(s, i)) == At(ItemValues(items), i + |ItemsText(items)| + 1)
    decreases items, 2
  {
    hide IsSpace, SkipWs, TreeText, TreeValue, ReadValue, ReadItem, TreeOk, ItemsText, Stands;
    ItemsStart(s, i, items);
    ItemsTextLength(items);
    var at := i + |items.before|;
    var end := at + |TreeText(items.tree)|;
    if items.NextItem? {
      SplitNext(s, end, items.after, ',', ItemsText(items.rest) + "]");
      ItemReads(s, at, items.tree, items.after, ',');
      ItemsRead(s, end + |items.after| + 1, items.rest);
    } else {
      ItemReads(s, at, items.tree, items.after, ']');
      assert ItemValues(items) == [TreeValue(items.tree)];
    }
  }

  lemma SplitNext(s: string, i: nat, after: string, close: char, rest: string)
    requires Stands(s, i, after + ([close] + rest))
    ensures Stands(s, i, after + [close]) && Stands(s, i + |after| + 1, rest)
  {
    hide Stands;
    StandsSplit(s, i, after, [close] + rest);
    StandsSplit(s, i + |after|, [close], rest);
    StandsSplit(s, i, after, [close]);
  }

  lemma MembersStart(s: string, i: nat, m: Members)
    requires MembersOk(m) && Stands(s, i, MembersText(m) + "}")
    ensures SkipWs(s, i) == i + |m.before| < |s| && s[i + |m.before|] != '}'
    ensures Stands(s, i + |m.before|, KeyText(m))
    ensures Stands(s, i + |m.before| + |KeyText(m)|, TreeText(m.tree))
    ensures Stands(s, i + |m.before| + |KeyText(m)| + |TreeText(m.tree)|,
                   m.after + if m.NextMember? then "," + (MembersText(m.rest) + "}") else "}")
  {
    hide TreeText, KeyText, Stands;
    var value, key := TreeText(m.tree), KeyText(m);
    var rest := if m.NextMember? then "," + (MembersText(m.rest) + "}") else "}";
    MembersClose(m);
    StandsSplit(s, i, m.before, key + (value + (m.after + rest)));
    StandsSplit(s, i + |m.before|, key, value + (m.after + rest));
    StandsSplit(s, i + |m.before| + |key|, value, m.after + rest);
    KeyStarts(s, i + |m.before|, m);
    SpaceReads(s, i, m.before);
  }

  lemma MembersClose(m: Members)
    ensures MembersText(m) + "}"
         == m.before + (KeyText(m) + (TreeText(m.tree) + (m.after + if m.NextMember? then "," + (MembersText(m.rest) + "}") else "}")))
  {
    hide TreeText, KeyText;
  }

  lemma KeyStarts(s: string, i: nat, m: Members)
    requires Stands(s, i, KeyText(m))
    ensures i < |s| && s[i] == '"'
  {
    hide Spelling, Stands;
    StandsSplit(s, i, "\"", Spelling(m.key) + ("\"" + (m.keyEnd + (":" + m.colonEnd))));
    StandsChar(s, i, '"');
  }

  lemma KeyReads(s: string, i: nat, m: Members)
    requires AllOk(m.key) && IsSpace(m.keyEnd) && IsSpace(m.colonEnd) && Stands(s, i, KeyText(m))
    requires i + |KeyText(m)| < |s| && !IsWs(s[i + |KeyText(m)|])
    ensures ReadKey(s, i) == At(Meaning(m.key), i + |KeyText(m)|)
  {
    hide Spelling, Meaning, ReadString, AllOk, IsSpace, SkipWs, Stands;
    var word, colon := Spelling(m.key), ":" + m.colonEnd;
    Opens(s, i, '"', word + ("\"" + (m.keyEnd + colon)));
    Associative(word, "\"", m.keyEnd + colon);
    StandsSplit(s, i + 1, word + "\"", m.keyEnd + colon);
    StringReads(s, i + 1, m.key);
    var end := i + 1 + |word| + 1;
    SplitNext(s, end, m.keyEnd, ':', m.colonEnd);
    AfterEnds(s, end, m.keyEnd, ':');
    SpaceReads(s, end + |m.keyEnd| + 1, m.colonEnd);
  }

  lemma MembersTextLength(m: Members)
    ensures |MembersText(m)| == |m.before| + |KeyText(m)| + |TreeText(m.tree)| + |m.after|
                                + if m.NextMember? then 1 + |MembersText(m.rest)| else 0
  {
    hide TreeText, KeyText;
  }

  lemma MemberReads(s: string, i: nat, m: Members, close: char)
    requires MembersOk(m) && close in "]},"
    requires Stands(s, i, KeyText(m)) && Stands(s, i + |KeyText(m)|, TreeText(m.tree))
    requires Stands(s, i + |KeyText(m)| + |TreeText(m.tree)|, m.after + [close])
    ensures var end := i + |KeyText(m)| + |TreeText(m.tree)| + |m.after|;
            && i <= end < |s| && ReadMember(s, i) == At((Meaning(m.key), TreeValue(m.tree)), end) && s[end] == close
    decreases m.tree, 2
  {
    hide IsSpace, AllOk, TreeText, TreeValue, ReadValue, TreeOk, KeyText, ReadKey, Meaning, Stands;
    ValueStarts(s, i + |KeyText(m)|, m.tree);
    KeyReads(s, i, m);
    ItemReads(s, i + |KeyText(m)|, m.tree, m.after, close);
  }

  lemma {:induction false} MembersRead(s: string, i: nat, m: Members)
    requires MembersOk(m) && Stands(s, i, MembersText(m) + "}")
    ensures i <= |s| && ReadMembers(s, SkipWs(s, i)) == At(MemberValues(m), i + |MembersText(m)| + 1)
    decreases m, 2
  {
    hide IsSpace, AllOk, SkipWs, TreeText, TreeValue, ReadValue, ReadMember, TreeOk, KeyText, ReadKey, Meaning, MembersText, Stands;
    MembersStart(s, i, m);
    MembersTextLength(m);
    var at := i + |m.before|;
    var value := at + |KeyText(m)|;
    var end := value + |TreeText(m.tree)|;
    if m.NextMember? {
      SplitNext(s, end, m.after, ',', MembersText(m.rest) + "}");
      MemberReads(s, at, m, ',');
      MembersRead(s, end + |m.after| + 1, m.rest);
    } else {
      MemberReads(s, at, m, '}');
      assert MemberValues(m) == [(Meaning(m.key), TreeValue(m.tree))];
    }
  }

  lemma ValueStarts(s: string, i: nat, t: Tree)
    requires TreeOk(t) && Stands(s, i, TreeText(t))
    ensures i < |s| && s[i] == TreeText(t)[0] && !IsWs(s[i]) && s[i] !in "]},:"
  {
    hide TreeText, TreeOk, Stands;
    TreeStarts(t);
    FirstApart(TreeText(t));
    StandsSplit(s, i, [TreeText(t)[0]], TreeText(t)[1..]);
    StandsChar(s, i, TreeText(t)[0]);
  }

  // ----- all that is read is a text

  lemma WordWrote(s: string, i: nat) returns (text: string)
    requires i <= |s| && ReadScalar(s, i).At?
    ensures IsWord(text) && Stands(s, i, text) && ReadScalar(s, i) == At(WordValue(text), i + |text|)
  {
    hide IsWord, ScalarOf, WordValue;
    text := s[i..ScalarEnd(s, i)];
    WordIff(text);
  }

  lemma {:induction false} TreeWrote(s: string, i: nat) returns (t: Tree)
    requires i <= |s| && ReadValue(s, i).At?
    ensures TreeOk(t) && Stands(s, i, TreeText(t)) && ReadValue(s, i) == At(TreeValue(t), i + |TreeText(t)|)
    decreases |s| - i, 0
  {
    hide IsWord, Spelling, Meaning, ReadString, ReadScalar, ReadItems, ReadMembers, FieldsOf, WordValue;
    hide ItemsText, MembersText, ItemValues, MemberValues, ItemsOk, MembersOk, Stands;
    if s[i] == '"' {
      var glyphs := StringWrote(s, i + 1);
      t := Quoted(glyphs);
      Opens(s, i, '"', Spelling(glyphs) + "\"");
    } else if s[i] == '[' {
      t := ArrayWrote(s, i);
    } else if s[i] == '{' {
      t := ObjectWrote(s, i);
    } else {
      var text := WordWrote(s, i);
      t := Word(text);
    }
  }

  lemma {:induction false} ArrayWrote(s: string, i: nat) returns (t: Tree)
    requires i < |s| && s[i] == '[' && ReadValue(s, i).At?
    ensures TreeOk(t) && Stands(s, i, TreeText(t)) && ReadValue(s, i) == At(TreeValue(t), i + |TreeText(t)|)
    decreases |s| - i - 1, 3
  {
    hide ReadItems, ReadMembers, ItemsText, ItemValues, ItemsOk, Stands;
    var space := SpaceWrote(s, i + 1);
    var k := SkipWs(s, i + 1);
    if k < |s| && s[k] == ']' {
      t := EmptyArray(space);
      Opens(s, i, '[', space + "]");
      StandsSplit(s, i + 1, space, "]");
      StandsChar(s, k, ']');
    } else {
      var items := ItemsWrote(s, i + 1);
      t := Array(items);
      Opens(s, i, '[', ItemsText(items) + "]");
    }
  }

  lemma {:induction false} ObjectWrote(s: string, i: nat) returns (t: Tree)
    requires i < |s| && s[i] == '{' && ReadValue(s, i).At?
    ensures TreeOk(t) && Stands(s, i, TreeText(t)) && ReadValue(s, i) == At(TreeValue(t), i + |TreeText(t)|)
    decreases |s| - i - 1, 3
  {
    hide ReadItems, ReadMembers, MembersText, MemberValues, MembersOk, FieldsOf, Stands;
    var space := SpaceWrote(s, i + 1);
    var k := SkipWs(s, i + 1);
    if k < |s| && s[k] == '}' {
      t := EmptyObject(space);
      Opens(s, i, '{', space + "}");
      StandsSplit(s, i + 1, space, "}");
      StandsChar(s, k, '}');
    } else {
      var members := MembersWrote(s, i + 1);
      t := Object(members);
      Opens(s, i, '{', MembersText(members) + "}");
    }
  }

  lemma ItemWrote(s: string, i: nat) returns (t: Tree, after: string)
    requires i <= |s| && ReadItem(s, i).At?
    ensures TreeOk(t) && IsSpace(after) && Stands(s, i, TreeText(t)) && Stands(s, i + |TreeText(t)|, after)
    ensures ReadItem(s, i) == At(TreeValue(t), i + |TreeText(t)| + |after|)
    decreases |s| - i, 1
  {
    hide TreeText, TreeValue, ReadValue, TreeOk, Stands;
    t := TreeWrote(s, i);
    after := SpaceWrote(s, i + |TreeText(t)|);
  }

  lemma {:induction false} ItemsWrote(s: string, i: nat) returns (items: Items)
    requires i <= |s| && ReadItems(s, SkipWs(s, i)).At?
    ensures ItemsOk(items) && Stands(s, i, ItemsText(items) + "]")
    ensures ReadItems(s, SkipWs(s, i)) == At(ItemValues(items), i + |ItemsText(items)| + 1)
    decreases |s| - i, 2
  {
    hide IsSpace, SkipWs, TreeText, TreeValue, ReadValue, ReadItem, TreeOk, ItemsText, Stands;
    var before := SpaceWrote(s, i);
    var at := SkipWs(s, i);
    var tree, after := ItemWrote(s, at);
    var end := at + |TreeText(tree)| + |after|;
    StandsChar(s, end, s[end]);
    if s[end] == ',' {
      var rest := ItemsWrote(s, end + 1);
      items := NextItem(before, tree, after, rest);
      Opens(s, end, ',', ItemsText(rest) + "]");
    } else {
      items := LastItem(before, tree, after);
      assert ItemValues(items) == [TreeValue(tree)];
    }
    ItemsJoin(s, i, items);
    ItemsTextLength(items);
  }

  /** The pieces of a list one after the other are the list. */
  lemma ItemsJoin(s: string, i: nat, items: Items)
    requires Stands(s, i, items.before) && Stands(s, i + |items.before|, TreeText(items.tree))
    requires Stands(s, i + |items.before| + |TreeText(items.tree)|, items.after)
    requires Stands(s, i + |items.before| + |TreeText(items.tree)| + |items.after|,
                    if items.NextItem? then "," + (ItemsText(items.rest) + "]") else "]")
    ensures Stands(s, i, ItemsText(items) + "]")
  {
    hide TreeText, Stands;
    var value := TreeText(items.tree);
    var rest := if items.NextItem? then "," + (ItemsText(items.rest) + "]") else "]";
    ItemsClose(items);
    StandsSplit(s, i + |items.before| + |value|, items.after, rest);
    StandsSplit(s, i + |items.before|, value, items.after + rest);
    StandsSplit(s, i, items.before, value + (items.after + rest));
  }

  lemma KeyWrote(s: string, i: nat) returns (key: seq<Glyph>, keyEnd: string, colonEnd: string)
    requires i <= |s| && ReadKey(s, i).At?
    ensures AllOk(key) && IsSpace(keyEnd) && IsSpace(colonEnd)
    ensures var text := "\"" + (Spelling(key) + ("\"" + (keyEnd + (":" + colonEnd))));
            Stands(s, i, text) && ReadKey(s, i) == At(Meaning(key), i + |text|)
  {
    hide Spelling, Meaning, ReadString, Stands;
    key := StringWrote(s, i + 1);
    var word := Spelling(key);
    var end := i + 1 + |word| + 1;
    keyEnd := SpaceWrote(s, end);
    var colon := SkipWs(s, end);
    colonEnd := SpaceWrote(s, colon + 1);
    Opens(s, colon, ':', colonEnd);
    StandsSplit(s, end, keyEnd, ":" + colonEnd);
    StandsSplit(s, i + 1, word + "\"", keyEnd + (":" + colonEnd));
    Associative(word, "\"", keyEnd + (":" + colonEnd));
    Opens(s, i, '"', word + ("\"" + (keyEnd + (":" + colonEnd))));
  }

  lemma MemberWrote(s: string, i: nat, before: string) returns (m: Members)
    requires i <= |s| && ReadMember(s, i).At? && IsSpace(before)
    ensures m.LastMember? && m.before == before && MembersOk(m)
    ensures Stands(s, i, KeyText(m)) && Stands(s, i + |KeyText(m)|, TreeText(m.tree))
    ensures Stands(s, i + |KeyText(m)| + |TreeText(m.tree)|, m.after)
    ensures ReadMember(s, i) == At((Meaning(m.key), TreeValue(m.tree)), i + |KeyText(m)| + |TreeText(m.tree)| + |m.after|)
    decreases |s| - i, 1
  {
    hide TreeText, TreeValue, ReadValue, TreeOk, ReadKey, Meaning, Spelling, Stands;
    var key, keyEnd, colonEnd := KeyWrote(s, i);
    var at := ReadKey(s, i).end;
    var tree := TreeWrote(s, at);
    var after := SpaceWrote(s, at + |TreeText(tree)|);
    m := LastMember(before, key, keyEnd, colonEnd, tree, after);
  }

  ghost function Followed(m: Members, rest: Members): (r: Members)
    requires m.LastMember? && MembersOk(m) && MembersOk(rest)
    ensures r.NextMember? && r.before == m.before && r.tree == m.tree && r.after == m.after && r.rest == rest && MembersOk(r)
    ensures KeyText(r) == KeyText(m) && MemberValues(r) == [(Meaning(m.key), TreeValue(m.tree))] + MemberValues(rest)
  {
    NextMember(m.before, m.key, m.keyEnd, m.colonEnd, m.tree, m.after, rest)
  }

  lemma {:induction false} MembersWrote(s: string, i: nat) returns (m: Members)
    requires i <= |s| && ReadMembers(s, SkipWs(s, i)).At?
    ensures MembersOk(m) && Stands(s, i, MembersText(m) + "}")
    ensures ReadMembers(s, SkipWs(s, i)) == At(MemberValues(m), i + |MembersText(m)| + 1)
    decreases |s| - i, 2
  {
    hide IsSpace, SkipWs, TreeText, TreeValue, ReadValue, ReadMember, TreeOk, MembersText, KeyText, Meaning, Spelling, Stands, AllOk;
    var before := SpaceWrote(s, i);
    var at := SkipWs(s, i);
    m := MemberWrote(s, at, before);
    var end := at + |KeyText(m)| + |TreeText(m.tree)| + |m.after|;
    StandsChar(s, end, s[end]);
    if s[end] == ',' {
      var rest := MembersWrote(s, end + 1);
      m := Followed(m, rest);
      Opens(s, end, ',', MembersText(rest) + "}");
    } else {
      assert MemberValues(m) == [(Meaning(m.key), TreeValue(m.tree))];
    }
    MembersJoin(s, i, m);
    MembersTextLength(m);
  }

  lemma MembersJoin(s: string, i: nat, m: Members)
    requires Stands(s, i, m.before) && Stands(s, i + |m.before|, KeyText(m))
    requires Stands(s, i + |m.before| + |KeyText(m)|, TreeText(m.tree))
    requires Stands(s, i + |m.before| + |KeyText(m)| + |TreeText(m.tree)|, m.after)
    requires Stands(s, i + |m.before| + |KeyText(m)| + |TreeText(m.tree)| + |m.after|,
                    if m.NextMember? then "," + (MembersText(m.rest) + "}") else "}")
    ensures Stands(s, i, MembersText(m) + "}")
  {
    hide TreeText, KeyText, Stands;
    var key, value := KeyText(m), TreeText(m.tree);
    var rest := if m.NextMember? then "," + (MembersText(m.rest) + "}") else "}";
    MembersClose(m);
    StandsSplit(s, i + |m.before| + |key| + |value|, m.after, rest);
    StandsSplit(s, i + |m.before| + |key|, value, m.after + rest);
    StandsSplit(s, i + |m.before|, key, value + (m.after + rest));
    StandsSplit(s, i, m.before, key + (value + (m.after + rest)));
  }

  // ----- the whole text

  ghost predicate IsTextOf(s: string, before: string, t: Tree, after: string) {
    IsSpace(before) && TreeOk(t) && IsSpace(after) && s == before + (TreeText(t) + after)
  }

  ghost predicate Means(s: string, v: Json) {
    exists before, t, after :: IsTextOf(s, before, t, after) && TreeValue(t) == v
  }

  lemma TextIsRead(s: string, before: string, t: Tree, after: string)
    requires IsTextOf(s, before, t, after)
    ensures Loads(s) == Some(TreeValue(t))
  {
    hide TreeText, TreeOk, TreeValue, ReadValue, Stands;
    StandsWhole(s, s);
    StandsSplit(s, 0, before, TreeText(t) + after);
    StandsSplit(s, |before|, TreeText(t), after);
    ValueStarts(s, |before|, t);
    SpaceReads(s, 0, before);
    var end := |before| + |TreeText(t)|;
    SpaceReads(s, end, after);
    if after != "" {
      FirstApart(after);
      Opens(s, end, after[0], after[1..]);
    }
    TreeReads(s, |before|, t);
  }

  lemma TextWrote(s: string) returns (before: string, t: Tree, after: string)
    requires Loads(s).Some?
    ensures IsTextOf(s, before, t, after) && Loads(s) == Some(TreeValue(t))
  {
    hide TreeText, TreeOk, TreeValue, ReadValue, Stands;
    before := SpaceWrote(s, 0);
    t := TreeWrote(s, |before|);
    after := SpaceWrote(s, |before| + |TreeText(t)|);
    StandsSplit(s, |before|, TreeText(t), after);
    StandsSplit(s, 0, before, TreeText(t) + after);
    StandsWhole(s, before + (TreeText(t) + after));
  }

  lemma StandsWhole(s: string, t: string)
    requires |s| == |t|
    ensures Stands(s, 0, t) <==> s == t
  {
    assert s[0..|s|] == s;
  }

  /** A text is read exactly when the grammar generates it, and to the value it means. */
  lemma LoadsIff(s: string, v: Json)
    ensures Loads(s) == Some(v) <==> Means(s, v)
  {
    hide TreeText, TreeOk, TreeValue, Loads;
    if Means(s, v) {
      var before, t, after :| IsTextOf(s, before, t, after) && TreeValue(t) == v;
      TextIsRead(s, before, t, after);
    }
    if Loads(s) == Some(v) {
      var before, t, after := TextWrote(s);
    }
  }

  /** The last member of a name gives its value, and other names are not there. */
  lemma {:induction false} FieldsMean(members: seq<(string, Json)>, name: string)
    ensures name in FieldsOf(members) <==> exists k :: 0 <= k < |members| && members[k].0 == name
    ensures forall k :: 0 <= k < |members| && members[k].0 == name && (forall j :: k < j < |members| ==> members[j].0 != name)
                        ==> FieldsOf(members)[name] == members[k].1
    decreases |members|
  {
    if members != [] {
      var init := members[..|members| - 1];
      FieldsMean(init, name);
      assert forall k :: 0 <= k < |init| ==> init[k] == members[k];
      if exists k :: 0 <= k < |init| && init[k].0 == name {
        var k :| 0 <= k < |init| && init[k].0 == name;
        assert members[k].0 == name;
      }
    }
  }
}
