/**
 * JSON values and the reading of a JSON text (RFC 8259, sections 2 to 7),
 * with the strictness of Python's `json.loads`.
 *
 * A number is kept as its text. An escaped surrogate half becomes a
 * private-use character of its own, so that every string stays a sequence of
 * characters.
 */
module Json {
  import opened Common
  import opened Text

  datatype Json =
    | JNull
    | JBool(value: bool)
    | JNum(text: string)
    | JStr(chars: string)
    | JArr(items: seq<Json>)
    | JObj(fields: map<string, Json>)

  /** What was read from a position, and the position after it. */
  datatype Read<+T> = Fail | At(value: T, end: nat)

  predicate IsWs(c: char) {
    c == ' ' || c == '\t' || c == '\n' || c == '\r'
  }

  predicate AllWs(s: string) {
    forall k :: 0 <= k < |s| ==> IsWs(s[k])
  }

  function SkipWs(s: string, i: nat): (r: nat)
    requires i <= |s|
    ensures i <= r <= |s|
    decreases |s| - i
  {
    if i < |s| && IsWs(s[i]) then SkipWs(s, i + 1) else i
  }

  /** Whether a value starting with `c` says by itself where it ends. */
  predicate SelfDelimiting(c: char) {
    c == '{' || c == '[' || c == '"'
  }

  predicate IsDelimiter(c: char) {
    IsWs(c) || SelfDelimiting(c) || c == '}' || c == ']' || c == ',' || c == ':'
  }

  function ScalarEnd(s: string, i: nat): (r: nat)
    requires i <= |s|
    ensures i <= r <= |s|
    decreases |s| - i
  {
    if i < |s| && !IsDelimiter(s[i]) then ScalarEnd(s, i + 1) else i
  }

  function DigitsEnd(s: string, i: nat): (r: nat)
    requires i <= |s|
    ensures i <= r <= |s|
    decreases |s| - i
  {
    if i < |s| && IsDigit(s[i]) then DigitsEnd(s, i + 1) else i
  }

  predicate IsNumber(t: string) {
    var i := if |t| > 0 && t[0] == '-' then 1 else 0;
    && i < |t| && IsDigit(t[i])
    && var j := if t[i] == '0' then i + 1 else DigitsEnd(t, i);
       var k := if j + 1 < |t| && t[j] == '.' && IsDigit(t[j + 1]) then DigitsEnd(t, j + 1) else j;
       k == |t| || IsExponent(t[k..])
  }

  predicate IsExponent(t: string) {
    && |t| > 0 && (t[0] == 'e' || t[0] == 'E')
    && var i := if |t| > 1 && (t[1] == '+' || t[1] == '-') then 2 else 1;
       i < |t| && DigitsEnd(t, i) == |t|
  }

  function ScalarOf(t: string): Option<Json> {
    if t == "null" then Some(JNull)
    else if t == "true" then Some(JBool(true))
    else if t == "false" then Some(JBool(false))
    else if IsNumber(t) || t == "NaN" || t == "Infinity" || t == "-Infinity" then Some(JNum(t))
    else None
  }

  function HexOf(c: char): Option<nat> {
    if IsDigit(c) then Some((c as int - '0' as int) as nat)
    else if 'a' <= c <= 'f' then Some((c as int - 'a' as int + 10) as nat)
    else if 'A' <= c <= 'F' then Some((c as int - 'A' as int + 10) as nat)
    else None
  }

  function HexCode(s: string, i: nat): Option<nat>
    requires i <= |s|
  {
    if i + 4 > |s| then None else
    match (HexOf(s[i]), HexOf(s[i + 1]), HexOf(s[i + 2]), HexOf(s[i + 3]))
    case (Some(a), Some(b), Some(c), Some(d)) => Some(((a * 16 + b) * 16 + c) * 16 + d)
    case _ => None
  }

  function CodeChar(code: nat): char {
    if code < 0xD800 || 0xE000 <= code < 0x10000 then code as char
    else if code < 0xE000 then (0xF0000 + code) as char
    else '\U{FFFD}'
  }

  /** The character an escape stands for; `i` is the position after the backslash. */
  function ReadEscape(s: string, i: nat): (r: Read<char>)
    requires i <= |s|
    ensures r.At? ==> i < r.end <= |s|
  {
    if i == |s| then Fail else
    match s[i]
    case '"' => At('"', i + 1)
    case '\\' => At('\\', i + 1)
    case '/' => At('/', i + 1)
    case 'b' => At('\U{0008}', i + 1)
    case 'f' => At('\U{000C}', i + 1)
    case 'n' => At('\n', i + 1)
    case 'r' => At('\r', i + 1)
    case 't' => At('\t', i + 1)
    case 'u' =>
      (match HexCode(s, i + 1)
       case Some(code) => At(CodeChar(code), i + 5)
       case None => Fail)
    case _ => Fail
  }

  /** The rest of a string; `i` is a position after its opening quote. */
  function ReadString(s: string, i: nat): (r: Read<string>)
    requires i <= |s|
    ensures r.At? ==> i < r.end <= |s|
    decreases |s| - i
  {
    if i == |s| || s[i] < ' ' then Fail
    else if s[i] == '"' then At("", i + 1)
    else
      var c := if s[i] == '\\' then ReadEscape(s, i + 1) else At(s[i], i + 1);
      if c.Fail? then Fail else
      match ReadString(s, c.end)
      case Fail => Fail
      case At(rest, end) => At([c.value] + rest, end)
  }

  function ReadScalar(s: string, i: nat): (r: Read<Json>)
    requires i <= |s|
    ensures r.At? ==> i < r.end <= |s|
  {
    var end := ScalarEnd(s, i);
    match ScalarOf(s[i..end])
    case Some(v) => if i < end then At(v, end) else Fail
    case None => Fail
  }

  /** A member's key and colon; the end is where its value starts. */
  function ReadKey(s: string, i: nat): (r: Read<string>)
    requires i <= |s|
    ensures r.At? ==> i < r.end <= |s|
  {
    if i == |s| || s[i] != '"' then Fail else
    var key := ReadString(s, i + 1);
    if key.Fail? then Fail else
    var colon := SkipWs(s, key.end);
    if colon == |s| || s[colon] != ':' then Fail else At(key.value, SkipWs(s, colon + 1))
  }

  function ReadValue(s: string, i: nat): (r: Read<Json>)
    requires i <= |s|
    ensures r.At? ==> i < r.end <= |s|
    decreases |s| - i, 0
  {
    if i == |s| then Fail
    else if s[i] == '"' then
      match ReadString(s, i + 1)
      case Fail => Fail
      case At(chars, end) => At(JStr(chars), end)
    else if s[i] == '{' then
      var k := SkipWs(s, i + 1);
      if k < |s| && s[k] == '}' then At(JObj(map[]), k + 1) else
      match ReadMembers(s, k)
      case Fail => Fail
      case At(members, end) => At(JObj(FieldsOf(members)), end)
    else if s[i] == '[' then
      var k := SkipWs(s, i + 1);
      if k < |s| && s[k] == ']' then At(JArr([]), k + 1) else
      match ReadItems(s, k)
      case Fail => Fail
      case At(items, end) => At(JArr(items), end)
    else ReadScalar(s, i)
  }

  /** One key and its value; the end is where the following comma or brace stands. */
  function ReadMember(s: string, i: nat): (r: Read<(string, Json)>)
    requires i <= |s|
    ensures r.At? ==> i < r.end < |s|
    decreases |s| - i, 1
  {
    var key := ReadKey(s, i);
    if key.Fail? then Fail else
    var v := ReadValue(s, key.end);
    if v.Fail? then Fail else
    var k := SkipWs(s, v.end);
    if k == |s| then Fail else At((key.value, v.value), k)
  }

  /** The members of an object from a member's key to the closing brace. */
  function ReadMembers(s: string, i: nat): (r: Read<seq<(string, Json)>>)
    requires i <= |s|
    ensures r.At? ==> i < r.end <= |s| && s[r.end - 1] == '}'
    decreases |s| - i, 2
  {
    var m := ReadMember(s, i);
    if m.Fail? then Fail
    else if s[m.end] == '}' then At([m.value], m.end + 1)
    else if s[m.end] != ',' then Fail
    else
      match ReadMembers(s, SkipWs(s, m.end + 1))
      case Fail => Fail
      case At(rest, end) => At([m.value] + rest, end)
  }

  function ReadItem(s: string, i: nat): (r: Read<Json>)
    requires i <= |s|
    ensures r.At? ==> i < r.end < |s|
    decreases |s| - i, 1
  {
    var v := ReadValue(s, i);
    if v.Fail? then Fail else
    var k := SkipWs(s, v.end);
    if k == |s| then Fail else At(v.value, k)
  }

  /** The items of an array to the closing bracket. */
  function ReadItems(s: string, i: nat): (r: Read<seq<Json>>)
    requires i <= |s|
    ensures r.At? ==> i < r.end <= |s|
    decreases |s| - i, 2
  {
    var v := ReadItem(s, i);
    if v.Fail? then Fail
    else if s[v.end] == ']' then At([v.value], v.end + 1)
    else if s[v.end] != ',' then Fail
    else
      match ReadItems(s, SkipWs(s, v.end + 1))
      case Fail => Fail
      case At(rest, end) => At([v.value] + rest, end)
  }

  /** A repeated key keeps its last value. */
  function FieldsOf(members: seq<(string, Json)>): map<string, Json> {
    if members == [] then map[]
    else var last := members[|members| - 1]; FieldsOf(members[..|members| - 1])[last.0 := last.1]
  }

  /** The value of a complete JSON text, None when it is not one. */
  function Loads(s: string): Option<Json> {
    var v := ReadValue(s, SkipWs(s, 0));
    if v.At? && SkipWs(s, v.end) == |s| then Some(v.value) else None
  }

  predicate IsObjectText(s: string) {
    Loads(s).Some? && Loads(s).value.JObj?
  }

  // ----- what is read depends only on the text up to its end

  predicate Agree(s: string, t: string, n: nat) {
    n <= |s| && n <= |t| && s[..n] == t[..n]
  }

  lemma AgreeAt(s: string, t: string, n: nat, k: nat)
    requires Agree(s, t, n) && k < n
    ensures s[k] == t[k]
  {
    assert s[..n][k] == t[..n][k];
  }

  lemma {:induction false} SkipWsStable(s: string, t: string, n: nat, i: nat)
    requires Agree(s, t, n) && i <= |s| && SkipWs(s, i) < n
    ensures SkipWs(t, i) == SkipWs(s, i)
    decreases n - i
  {
    AgreeAt(s, t, n, i);
    if IsWs(s[i]) {
      SkipWsStable(s, t, n, i + 1);
    }
  }

  lemma {:induction false} ScalarEndStable(s: string, t: string, n: nat, i: nat)
    requires Agree(s, t, n) && i <= |s| && ScalarEnd(s, i) < n
    ensures ScalarEnd(t, i) == ScalarEnd(s, i)
    decreases n - i
  {
    AgreeAt(s, t, n, i);
    if !IsDelimiter(s[i]) {
      ScalarEndStable(s, t, n, i + 1);
    }
  }

  lemma EscapeStable(s: string, t: string, n: nat, i: nat)
    requires Agree(s, t, n) && i <= |s|
    requires ReadEscape(s, i).At? && ReadEscape(s, i).end <= n
    ensures ReadEscape(t, i) == ReadEscape(s, i)
  {
    forall k | i <= k < ReadEscape(s, i).end ensures s[k] == t[k] {
      AgreeAt(s, t, n, k);
    }
  }

  lemma {:induction false} StringStable(s: string, t: string, n: nat, i: nat)
    requires Agree(s, t, n) && i <= |s|
    requires ReadString(s, i).At? && ReadString(s, i).end <= n
    ensures ReadString(t, i) == ReadString(s, i)
    decreases n - i
  {
    AgreeAt(s, t, n, i);
    if s[i] != '"' {
      if s[i] == '\\' {
        EscapeStable(s, t, n, i + 1);
        StringStable(s, t, n, ReadEscape(s, i + 1).end);
      } else {
        StringStable(s, t, n, i + 1);
      }
    }
  }

  lemma ScalarStable(s: string, t: string, n: nat, i: nat)
    requires Agree(s, t, n) && i <= |s|
    requires ReadScalar(s, i).At? && ReadScalar(s, i).end < n
    ensures ReadScalar(t, i) == ReadScalar(s, i)
  {
    ScalarEndStable(s, t, n, i);
    var end := ScalarEnd(s, i);
    assert s[i..end] == s[..n][i..end] == t[..n][i..end] == t[i..end];
  }

  lemma KeyStable(s: string, t: string, n: nat, i: nat)
    requires Agree(s, t, n) && i <= |s|
    requires ReadKey(s, i).At? && ReadKey(s, i).end < n
    ensures ReadKey(t, i) == ReadKey(s, i)
  {
    AgreeAt(s, t, n, i);
    StringStable(s, t, n, i + 1);
    var colon := SkipWs(s, ReadString(s, i + 1).end);
    SkipWsStable(s, t, n, ReadString(s, i + 1).end);
    AgreeAt(s, t, n, colon);
    SkipWsStable(s, t, n, colon + 1);
  }

  /** The first character that is not whitespace lies within the common part. */
  lemma NextCharStable(s: string, t: string, n: nat, i: nat)
    requires Agree(s, t, n) && i <= |s| && SkipWs(s, i) < n
    ensures SkipWs(t, i) == SkipWs(s, i) && t[SkipWs(t, i)] == s[SkipWs(s, i)]
  {
    SkipWsStable(s, t, n, i);
    AgreeAt(s, t, n, SkipWs(s, i));
  }

  /**
   * A value read within the first `n` characters is read the same in every text with
   * those characters, unless it is a scalar that may go on beyond them.
   */
  lemma {:induction false} ValueStable(s: string, t: string, n: nat, i: nat)
    requires Agree(s, t, n) && i <= |s|
    requires ReadValue(s, i).At? && ReadValue(s, i).end <= n
    requires ReadValue(s, i).end < n || SelfDelimiting(s[i])
    ensures ReadValue(t, i) == ReadValue(s, i)
    decreases n - i, 0
  {
    AgreeAt(s, t, n, i);
    if s[i] == '"' {
      StringStable(s, t, n, i + 1);
    } else if s[i] == '{' {
      NextCharStable(s, t, n, i + 1);
      var k := SkipWs(s, i + 1);
      if s[k] != '}' { MembersStable(s, t, n, k); }
    } else if s[i] == '[' {
      NextCharStable(s, t, n, i + 1);
      var k := SkipWs(s, i + 1);
      if s[k] != ']' { ItemsStable(s, t, n, k); }
    } else {
      ScalarStable(s, t, n, i);
    }
  }

  lemma {:induction false} MemberStable(s: string, t: string, n: nat, i: nat)
    requires Agree(s, t, n) && i <= |s|
    requires ReadMember(s, i).At? && ReadMember(s, i).end < n
    ensures ReadMember(t, i) == ReadMember(s, i) && t[ReadMember(t, i).end] == s[ReadMember(s, i).end]
    decreases n - i, 1
  {
    KeyStable(s, t, n, i);
    ValueStable(s, t, n, ReadKey(s, i).end);
    NextCharStable(s, t, n, ReadValue(s, ReadKey(s, i).end).end);
  }

  lemma {:induction false} MembersStable(s: string, t: string, n: nat, i: nat)
    requires Agree(s, t, n) && i <= |s|
    requires ReadMembers(s, i).At? && ReadMembers(s, i).end <= n
    ensures ReadMembers(t, i) == ReadMembers(s, i)
    decreases n - i, 2
  {
    hide ReadMember, ReadValue, SkipWs;
    MemberStable(s, t, n, i);
    var k := ReadMember(s, i).end;
    if s[k] == ',' {
      SkipWsStable(s, t, n, k + 1);
      MembersStable(s, t, n, SkipWs(s, k + 1));
    }
  }

  lemma {:induction false} ItemStable(s: string, t: string, n: nat, i: nat)
    requires Agree(s, t, n) && i <= |s|
    requires ReadItem(s, i).At? && ReadItem(s, i).end < n
    ensures ReadItem(t, i) == ReadItem(s, i) && t[ReadItem(t, i).end] == s[ReadItem(s, i).end]
    decreases n - i, 1
  {
    ValueStable(s, t, n, i);
    NextCharStable(s, t, n, ReadValue(s, i).end);
  }

  lemma {:induction false} ItemsStable(s: string, t: string, n: nat, i: nat)
    requires Agree(s, t, n) && i <= |s|
    requires ReadItems(s, i).At? && ReadItems(s, i).end <= n
    ensures ReadItems(t, i) == ReadItems(s, i)
    decreases n - i, 2
  {
    hide ReadItem, ReadValue, SkipWs;
    ItemStable(s, t, n, i);
    var k := ReadItem(s, i).end;
    if s[k] == ',' {
      SkipWsStable(s, t, n, k + 1);
      ItemsStable(s, t, n, SkipWs(s, k + 1));
    }
  }

  /**
   * No proper prefix of a JSON object text is a complete JSON text, except for
   * leaving out trailing whitespace, and then it has the same value.
   */
  lemma ObjectTextPrefix(s: string, m: nat)
    requires IsObjectText(s) && m <= |s|
    ensures Loads(s[..m]) == if AllWs(s[m..]) then Loads(s) else None
  {
    var i := SkipWs(s, 0);
    var end := ReadValue(s, i).end;
    assert s[i] == '{';
    assert s[end - 1] == '}';
    var t := s[..m];
    if end <= m {
      SkipWsSkips(s, end);
      assert AllWs(s[m..]);
      assert Agree(s, t, end) by { assert t[..end] == s[..end]; }
      SkipWsStable(s, t, end, 0);
      ValueStable(s, t, end, i);
      SkipWsToEnd(t, end);
    } else {
      assert !AllWs(s[m..]) by { assert s[m..][end - 1 - m] == '}'; }
      if Loads(t).Some? {
        var j := SkipWs(t, 0);
        assert Agree(t, s, m) by { assert t[..m] == s[..m]; }
        assert j == i by {
          if j < m { SkipWsStable(t, s, m, 0); }
        }
        ValueStable(t, s, m, i);
        assert false;
      }
    }
  }

  lemma {:induction false} SkipWsSkips(s: string, i: nat)
    requires i <= |s|
    ensures forall k :: i <= k < SkipWs(s, i) ==> IsWs(s[k])
    ensures SkipWs(s, i) < |s| ==> !IsWs(s[SkipWs(s, i)])
    decreases |s| - i
  {
    if i < |s| && IsWs(s[i]) { SkipWsSkips(s, i + 1); }
  }

  lemma {:induction false} SkipWsToEnd(s: string, i: nat)
    requires i <= |s| && forall k :: i <= k < |s| ==> IsWs(s[k])
    ensures SkipWs(s, i) == |s|
    decreases |s| - i
  {
    if i < |s| { SkipWsToEnd(s, i + 1); }
  }

  // ----- a string inside a text is shorter than the text

  lemma {:induction false} StringShorter(s: string, i: nat)
    requires i <= |s| && ReadString(s, i).At?
    ensures |ReadString(s, i).value| < ReadString(s, i).end - i
    decreases |s| - i
  {
    if s[i] != '"' {
      StringShorter(s, if s[i] == '\\' then ReadEscape(s, i + 1).end else i + 1);
    }
  }

  lemma ValueShorter(s: string, i: nat)
    requires i <= |s| && ReadValue(s, i).At? && ReadValue(s, i).value.JStr?
    ensures |ReadValue(s, i).value.chars| < ReadValue(s, i).end - i
  {
    if s[i] == '"' {
      StringShorter(s, i + 1);
    }
  }

  lemma {:induction false} MembersShorter(s: string, i: nat, k: nat)
    requires i <= |s| && ReadMembers(s, i).At? && k < |ReadMembers(s, i).value|
    requires ReadMembers(s, i).value[k].1.JStr?
    ensures |ReadMembers(s, i).value[k].1.chars| < ReadMembers(s, i).end - i
    decreases |s| - i
  {
    if k == 0 {
      ValueShorter(s, ReadKey(s, i).end);
    } else {
      MembersShorter(s, SkipWs(s, ReadMember(s, i).end + 1), k - 1);
    }
  }

  lemma {:induction false} FieldIsMember(members: seq<(string, Json)>, key: string) returns (k: nat)
    requires key in FieldsOf(members)
    ensures k < |members| && members[k] == (key, FieldsOf(members)[key])
  {
    k := |members| - 1;
    if members[k].0 != key {
      k := FieldIsMember(members[..k], key);
    }
  }

  /** A string held by an object is shorter than the object's text. */
  lemma FieldStringShorter(s: string, key: string)
    requires IsObjectText(s) && key in Loads(s).value.fields && Loads(s).value.fields[key].JStr?
    ensures |Loads(s).value.fields[key].chars| < |s|
  {
    var i := SkipWs(s, 0);
    var k := SkipWs(s, i + 1);
    var members := ReadMembers(s, k).value;
    var m := FieldIsMember(members, key);
    MembersShorter(s, k, m);
  }
}
