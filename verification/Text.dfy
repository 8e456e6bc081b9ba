/** White space and line ends as the text-handling components see them. */
module Text {

  predicate IsDigit(c: char) {
    '0' <= c <= '9'
  }

  predicate IsSpace(c: char) {
    || '\t' <= c <= '\r' || '\U{001C}' <= c <= ' ' || c == '\U{0085}' || c == '\U{00A0}' || c == '\U{1680}'
    || '\U{2000}' <= c <= '\U{200A}' || c == '\U{2028}' || c == '\U{2029}' || c == '\U{202F}' || c == '\U{205F}' || c == '\U{3000}'
  }

  function StripLeft(s: string): string {
    if s != "" && IsSpace(s[0]) then StripLeft(s[1..]) else s
  }

  function StripRight(s: string): string {
    if s != "" && IsSpace(s[|s| - 1]) then StripRight(s[..|s| - 1]) else s
  }

  function Strip(s: string): string {
    StripRight(StripLeft(s))
  }

  function StripNewlinesLeft(s: string): string {
    if s != "" && s[0] == '\n' then StripNewlinesLeft(s[1..]) else s
  }

  function StripNewlinesRight(s: string): string {
    if s != "" && s[|s| - 1] == '\n' then StripNewlinesRight(s[..|s| - 1]) else s
  }

  function StripNewlines(s: string): string {
    StripNewlinesRight(StripNewlinesLeft(s))
  }

  predicate Blank(s: string) {
    forall i :: 0 <= i < |s| ==> IsSpace(s[i])
  }

  /** Text after which a line starts. */
  predicate LineEnd(s: string) {
    s == "" || s[|s| - 1] == '\n'
  }

  /** Python's white space, one by one. */
  lemma SpacesAre(c: char)
    ensures IsSpace(c) <==>
            c in "\t\n\U{000B}\U{000C}\r\U{001C}\U{001D}\U{001E}\U{001F} \U{0085}\U{00A0}\U{1680}\U{2000}\U{2001}\U{2002}\U{2003}"
            || c in "\U{2004}\U{2005}\U{2006}\U{2007}\U{2008}\U{2009}\U{200A}\U{2028}\U{2029}\U{202F}\U{205F}\U{3000}"
  {
  }

  /** Stripping takes white space off both ends, and nothing else. */
  lemma StripMeans(s: string) returns (before: string, after: string)
    ensures s == before + Strip(s) + after && Blank(before) && Blank(after)
    ensures Strip(s) != "" ==> !IsSpace(Strip(s)[0]) && !IsSpace(Strip(s)[|Strip(s)| - 1])
    ensures Strip(s) == "" <==> Blank(s)
  {
    before := StripLeftMeans(s);
    after := StripRightMeans(StripLeft(s));
    if Strip(s) != "" {
      assert Strip(s)[0] == StripLeft(s)[0];
      assert s[|before|] == Strip(s)[0];
    } else {
      assert s == before + after;
    }
  }

  lemma {:induction false} StripLeftMeans(s: string) returns (before: string)
    ensures s == before + StripLeft(s) && Blank(before)
    ensures StripLeft(s) != "" ==> !IsSpace(StripLeft(s)[0])
  {
    before := "";
    if s != "" && IsSpace(s[0]) {
      before := StripLeftMeans(s[1..]);
      before := [s[0]] + before;
    }
  }

  lemma {:induction false} StripRightMeans(s: string) returns (after: string)
    ensures s == StripRight(s) + after && Blank(after)
    ensures StripRight(s) != "" ==> !IsSpace(StripRight(s)[|StripRight(s)| - 1])
    ensures s != "" && !IsSpace(s[0]) ==> StripRight(s) != ""
  {
    after := "";
    if s != "" && IsSpace(s[|s| - 1]) {
      after := StripRightMeans(s[..|s| - 1]);
      after := after + [s[|s| - 1]];
    }
  }

  // ----- numbers written out

  function Digit(d: nat): char
    requires d < 10
  {
    ('0' as int + d) as char
  }

  /** The decimal digits of a number. */
  function Numeral(n: nat): string {
    (if n < 10 then "" else Numeral(n / 10)) + [Digit(n % 10)]
  }

  /** The number digits stand for; anything else in between counts as a zero. */
  function ValueOf(digits: string): nat {
    if digits == "" then 0
    else
      var last := digits[|digits| - 1];
      10 * ValueOf(digits[..|digits| - 1]) + (if IsDigit(last) then last as int - '0' as int else 0)
  }

  lemma ValuePush(front: string, d: nat)
    requires d < 10
    ensures ValueOf(front + [Digit(d)]) == 10 * ValueOf(front) + d && IsDigit(Digit(d))
  {
    assert (front + [Digit(d)])[..|front|] == front;
  }

  lemma {:induction false} NumeralMeans(n: nat)
    ensures Numeral(n) != "" && ValueOf(Numeral(n)) == n
    ensures forall k :: 0 <= k < |Numeral(n)| ==> IsDigit(Numeral(n)[k])
  {
    hide ValueOf, Digit;
    var front := if n < 10 then "" else Numeral(n / 10);
    ValuePush(front, n % 10);
    if n >= 10 {
      NumeralMeans(n / 10);
    } else {
      NoDigits();
    }
  }

  lemma NoDigits()
    ensures ValueOf("") == 0
  {
  }

  // ----- line ends at the ends of a text

  predicate AllNewlines(s: string) {
    forall i :: 0 <= i < |s| ==> s[i] == '\n'
  }

  lemma {:induction false} StripNewlinesRightMeans(s: string) returns (after: string)
    ensures s == StripNewlinesRight(s) + after && AllNewlines(after)
    ensures StripNewlinesRight(s) != "" ==> StripNewlinesRight(s)[|StripNewlinesRight(s)| - 1] != '\n'
    ensures s != "" && s[0] != '\n' ==> StripNewlinesRight(s) != "" && StripNewlinesRight(s)[0] == s[0]
  {
    after := "";
    if s != "" && s[|s| - 1] == '\n' {
      after := StripNewlinesRightMeans(s[..|s| - 1]);
      after := after + "\n";
    }
  }

  lemma {:induction false} StripNewlinesLeftMeans(s: string) returns (before: string)
    ensures s == before + StripNewlinesLeft(s) && AllNewlines(before)
    ensures StripNewlinesLeft(s) != "" ==> StripNewlinesLeft(s)[0] != '\n'
  {
    before := "";
    if s != "" && s[0] == '\n' {
      before := StripNewlinesLeftMeans(s[1..]);
      before := "\n" + before;
    }
  }

  /** Stripping line ends takes them off both ends, and nothing else. */
  lemma StripNewlinesMeans(s: string) returns (before: string, after: string)
    ensures s == before + StripNewlines(s) + after && AllNewlines(before) && AllNewlines(after)
    ensures StripNewlines(s) != "" ==> StripNewlines(s)[0] != '\n' && StripNewlines(s)[|StripNewlines(s)| - 1] != '\n'
  {
    before := StripNewlinesLeftMeans(s);
    after := StripNewlinesRightMeans(StripNewlinesLeft(s));
  }
}
