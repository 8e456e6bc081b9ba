/**
 * The changelog editor: where a version's section stands in the text, how one
 * is put in or replaced, and how one is read back.
 */
module Changelog {
  import opened Common
  import opened Text

  const HEADING := "## ["

  // The long lines of the header are joined from pieces, since the verifier follows a literal only so far.
  const TITLE := "# Changelog\n\n"
  const ABOUT_FILE := "All notable changes to this project are " + "documented in this file. The format follows\n"
  const ABOUT_FORMAT := "[Keep a Changelog]" + "(https://keepachangelog.com/en/1.1.0/); " + "versions are `major.minor.micro`\n"
  const ABOUT_TAGS := "and every release is tagged `vX.Y.Z`.\n"
  const HEADER := TITLE + (ABOUT_FILE + ABOUT_FORMAT + ABOUT_TAGS)

  datatype Conflict = Tagged | NotOnTop

  // ----- searching

  /** The pattern stands at the start of a line, at position `p`. */
  predicate At(t: string, pat: string, p: nat) {
    && p + |pat| <= |t|
    && (p == 0 || t[p - 1] == '\n')
    && t[p..p + |pat|] == pat
  }

  /** The first place at or behind `from` where a line starts with the pattern. */
  function Find(t: string, pat: string, from: nat): (r: Option<nat>)
    requires from <= |t|
    ensures r.Some? ==> from <= r.value <= |t| && At(t, pat, r.value) && forall p: nat :: from <= p < r.value ==> !At(t, pat, p)
    ensures r.None? ==> forall p: nat :: from <= p ==> !At(t, pat, p)
    decreases |t| - from
  {
    if At(t, pat, from) then Some(from)
    else if from == |t| then None
    else Find(t, pat, from + 1)
  }

  function Mark(version: string): string {
    HEADING + version + "]"
  }

  /** Start of the version's heading, and start of the next heading or the end of the text. */
  function Span(t: string, version: string): (r: Option<(nat, nat)>)
    ensures r.Some? ==> r.value.0 + |Mark(version)| <= r.value.1 <= |t|
  {
    var start := Find(t, Mark(version), 0);
    if start.None? then None
    else Some((start.value, Find(t, HEADING, start.value + |Mark(version)|).GetOr(|t|)))
  }

  /** What stands behind the first line end; nothing when there is none. */
  function AfterLine(s: string): string {
    if s == "" then "" else if s[0] == '\n' then s[1..] else AfterLine(s[1..])
  }

  function Body(section: string): string {
    StripNewlines(AfterLine(section))
  }

  function Extract(t: string, version: string): Option<string> {
    match Span(t, version)
    case None => None
    case Some((start, end)) => Some(Body(t[start..end]))
  }

  function Insert(t: string, version: string, section: string, tagExists: bool): Result<string, Conflict> {
    if Blank(t) then Ok(HEADER + "\n" + section)
    else
      var first := Find(t, HEADING, 0);
      match Span(t, version)
      case None =>
        if first.None? then Ok(StripNewlinesRight(t) + "\n\n" + section)
        else Ok(t[..first.value] + section + "\n" + t[first.value..])
      case Some((start, end)) =>
        if tagExists then Err(Tagged)
        else if first != Some(start) then Err(NotOnTop)
        else Ok(t[..start] + section + (if end < |t| then "\n" else "") + t[end..])
  }

  /** A version as the command line takes it: no line end and no closing bracket in it. */
  predicate Plain(version: string) {
    '\n' !in version && ']' !in version
  }

  /** Text with the version's heading first and no other heading behind it, ending its last line. */
  ghost predicate IsSection(s: string, version: string) {
    At(s, Mark(version), 0) && LineEnd(s) && (forall p: nat :: |Mark(version)| <= p ==> !At(s, HEADING, p))
  }

  ghost predicate NoHeading(t: string) {
    forall p: nat :: !At(t, HEADING, p)
  }

  predicate HeadedOrEmpty(t: string) {
    t == "" || At(t, HEADING, 0)
  }

  // ----- places in a text cut at a line start

  lemma AtMark(t: string, version: string, p: nat)
    requires At(t, Mark(version), p)
    ensures At(t, HEADING, p)
  {
    assert t[p..p + |HEADING|] == t[p..p + |Mark(version)|][..|HEADING|] == HEADING;
  }

  lemma SliceBehind(a: string, b: string, lo: nat, hi: nat)
    requires lo <= hi <= |b|
    ensures (a + b)[|a| + lo..|a| + hi] == b[lo..hi]
  {
  }

  lemma AtBehind(a: string, b: string, pat: string, p: nat)
    requires LineEnd(a) && pat != ""
    ensures At(a + b, pat, |a| + p) <==> At(b, pat, p)
  {
    if p + |pat| <= |b| {
      SliceBehind(a, b, p, p + |pat|);
    }
  }

  lemma AtBefore(a: string, b: string, pat: string, p: nat)
    requires LineEnd(a) && pat != "" && '\n' !in pat && p < |a|
    ensures At(a + b, pat, p) <==> At(a, pat, p)
  {
    if p + |pat| <= |a| {
      assert (a + b)[p..p + |pat|] == a[p..p + |pat|];
    } else if p + |pat| <= |a + b| {
      var there := (a + b)[p..p + |pat|];
      assert there[|a| - 1 - p] == '\n';
    }
  }

  lemma FoundAt(t: string, pat: string, from: nat, p: nat)
    requires from <= p <= |t| && At(t, pat, p)
    requires forall q: nat :: from <= q < p ==> !At(t, pat, q)
    ensures Find(t, pat, from) == Some(p)
  {
  }

  lemma FoundNowhere(t: string, pat: string, from: nat)
    requires from <= |t| && forall q: nat :: from <= q ==> !At(t, pat, q)
    ensures Find(t, pat, from) == None
  {
  }

  lemma AbsentBehind(a: string, b: string, pat: string, lo: nat, hi: nat)
    requires LineEnd(a) && pat != "" && forall q: nat :: lo <= q < hi ==> !At(b, pat, q)
    ensures forall q: nat :: |a| + lo <= q < |a| + hi ==> !At(a + b, pat, q)
  {
    forall q: nat | |a| + lo <= q < |a| + hi ensures !At(a + b, pat, q) {
      AtBehind(a, b, pat, q - |a|);
    }
  }

  lemma AbsentPast(t: string, pat: string)
    requires pat != ""
    ensures forall q: nat :: |t| <= q ==> !At(t, pat, q)
  {
  }

  /** Searching behind a line end is searching the text behind it. */
  lemma FindBehind(a: string, b: string, pat: string, from: nat)
    requires LineEnd(a) && pat != "" && from <= |b|
    ensures Find(a + b, pat, |a| + from) == Behind(|a|, Find(b, pat, from))
  {
    hide At;
    if Find(b, pat, from).Some? {
      var p := Find(b, pat, from).value;
      AbsentBehind(a, b, pat, from, p);
      AtBehind(a, b, pat, p);
      FoundAt(a + b, pat, |a| + from, |a| + p);
    } else {
      AbsentBehind(a, b, pat, from, |b|);
      AbsentPast(a + b, pat);
      FoundNowhere(a + b, pat, |a| + from);
    }
  }

  function Behind(offset: nat, place: Option<nat>): Option<nat> {
    match place case None => None case Some(p) => Some(offset + p)
  }

  lemma FindFromLater(t: string, pat: string, from: nat)
    requires from <= |t| && forall q: nat :: q < from ==> !At(t, pat, q)
    ensures Find(t, pat, 0) == Find(t, pat, from)
  {
    match Find(t, pat, from)
    case Some(p) => FoundAt(t, pat, 0, p);
    case None =>
      forall q: nat ensures !At(t, pat, q) {
        if from <= q {
        }
      }
  }

  // ----- the edit as three pieces

  /** The section with the blank line that separates it from what follows. */
  function Chunk(section: string, after: string): string {
    if after == "" then section else section + "\n"
  }

  function Around(before: string, section: string, after: string): string {
    before + (Chunk(section, after) + after)
  }

  lemma ChunkIsSection(s: string, after: string, version: string)
    requires IsSection(s, version)
    ensures IsSection(Chunk(s, after), version)
  {
    var c := Chunk(s, after);
    assert c[0..|Mark(version)|] == s[0..|Mark(version)|];
    forall p: nat | |Mark(version)| <= p ensures !At(c, HEADING, p) {
      if p < |s| && after != "" {
        AtBefore(s, "\n", HEADING, p);
      }
    }
  }

  /** A heading that follows text without headings is the first one, of any kind. */
  lemma FirstHeading(before: string, tail: string, version: string)
    requires LineEnd(before) && NoHeading(before) && At(tail, Mark(version), 0)
    ensures Find(before + tail, HEADING, 0) == Some(|before|)
    ensures Find(before + tail, Mark(version), 0) == Some(|before|)
  {
    var t := before + tail;
    NoneBefore(before, tail);
    AtBehind(before, tail, Mark(version), 0);
    AtMark(t, version, |before|);
    forall q: nat | q < |before| ensures !At(t, Mark(version), q) {
      if At(t, Mark(version), q) {
        AtMark(t, version, q);
      }
    }
    FoundAt(t, HEADING, 0, |before|);
    FoundAt(t, Mark(version), 0, |before|);
  }

  lemma AtStart(a: string, b: string, pat: string)
    requires At(a, pat, 0)
    ensures At(a + b, pat, 0) && |pat| <= |a|
  {
    assert (a + b)[0..|pat|] == a[0..|pat|];
  }

  /** A section between text without headings and text that starts with one is found, whole. */
  lemma SpanAround(before: string, section: string, after: string, version: string)
    requires LineEnd(before) && NoHeading(before) && HeadedOrEmpty(after) && IsSection(section, version)
    ensures var t := Around(before, section, after);
            && Find(t, HEADING, 0) == Some(|before|)
            && Span(t, version) == Some((|before|, |before| + |Chunk(section, after)|))
  {
    hide At;
    var c := Chunk(section, after);
    ChunkIsSection(section, after, version);
    AtStart(c, after, Mark(version));
    FirstHeading(before, c + after, version);
    FindBehind(before, c + after, HEADING, |Mark(version)|);
    NextHeading(c, after, version);
  }

  lemma NoneBefore(before: string, tail: string)
    requires LineEnd(before) && NoHeading(before)
    ensures forall q: nat :: q < |before| ==> !At(before + tail, HEADING, q)
  {
    forall q: nat | q < |before| ensures !At(before + tail, HEADING, q) {
      AtBefore(before, tail, HEADING, q);
    }
  }

  lemma NextHeading(c: string, after: string, version: string)
    requires IsSection(c, version) && HeadedOrEmpty(after)
    ensures Find(c + after, HEADING, |Mark(version)|).GetOr(|c + after|) == |c|
  {
    if after == "" {
      assert c + after == c;
    } else {
      forall q: nat | |Mark(version)| <= q < |c| ensures !At(c + after, HEADING, q) {
        AtBefore(c, after, HEADING, q);
      }
      AtBehind(c, after, HEADING, 0);
      FoundAt(c + after, HEADING, |Mark(version)|, |c|);
    }
  }

  /** What stands before and after the place of a version's section. */
  function Places(t: string, version: string): (string, string) {
    if Blank(t) then (HEADER + "\n", "")
    else
      match Span(t, version)
      case Some((start, end)) => (t[..start], t[end..])
      case None =>
        match Find(t, HEADING, 0)
        case None => (StripNewlinesRight(t) + "\n\n", "")
        case Some(cut) => (t[..cut], t[cut..])
  }

  lemma InsertIsAround(t: string, version: string, section: string, tagExists: bool)
    requires Insert(t, version, section, tagExists).Ok?
    ensures var (before, after) := Places(t, version);
            && Insert(t, version, section, tagExists) == Ok(Around(before, section, after))
            && LineEnd(before) && NoHeading(before) && HeadedOrEmpty(after)
  {
    assert section + "" == section;
    if Blank(t) {
      HeaderHasNoHeading();
    } else if Find(t, HEADING, 0).None? {
      StrippedHasNoHeading(t);
      assert Span(t, version).None?;
    } else {
      InsertBetween(t, version, section, tagExists);
    }
  }

  lemma InsertBetween(t: string, version: string, section: string, tagExists: bool)
    requires !Blank(t) && Find(t, HEADING, 0).Some? && Insert(t, version, section, tagExists).Ok?
    ensures var (before, after) := Places(t, version);
            && Insert(t, version, section, tagExists) == Ok(Around(before, section, after))
            && LineEnd(before) && NoHeading(before) && HeadedOrEmpty(after)
  {
    hide At;
    var cut := Find(t, HEADING, 0).value;
    CutBefore(t, cut);
    if Span(t, version).None? {
      CutAfter(t, cut);
      Glue(t[..cut], section, t[cut..]);
    } else {
      var end := Span(t, version).value.1;
      if end < |t| {
        CutAfter(t, end);
        Glue(t[..cut], section, t[end..]);
      } else {
        assert t[end..] == "" && section + "" == section;
        assert t[..cut] + section + "" + t[end..] == t[..cut] + section;
      }
    }
  }

  lemma Glue(before: string, section: string, after: string)
    ensures before + section + "\n" + after == before + ((section + "\n") + after)
  {
  }

  lemma CutBefore(t: string, cut: nat)
    requires Find(t, HEADING, 0) == Some(cut)
    ensures LineEnd(t[..cut]) && NoHeading(t[..cut])
  {
    forall p: nat ensures !At(t[..cut], HEADING, p) {
      if p + |HEADING| <= cut {
        assert t[p..p + |HEADING|] == t[..cut][p..p + |HEADING|];
        assert !At(t, HEADING, p);
      }
    }
  }

  lemma CutAfter(t: string, cut: nat)
    requires cut <= |t| && At(t, HEADING, cut)
    ensures At(t[cut..], HEADING, 0)
  {
    assert t[cut..][0..|HEADING|] == t[cut..cut + |HEADING|];
  }

  lemma {:induction false} StrippedIsPrefix(s: string)
    ensures |StripNewlinesRight(s)| <= |s| && StripNewlinesRight(s) == s[..|StripNewlinesRight(s)|]
  {
    if s != "" && s[|s| - 1] == '\n' {
      StrippedIsPrefix(s[..|s| - 1]);
    }
  }

  lemma StrippedHasNoHeading(t: string)
    requires NoHeading(t)
    ensures NoHeading(StripNewlinesRight(t) + "\n\n")
  {
    var body := StripNewlinesRight(t);
    StrippedIsPrefix(t);
    var padded := body + "\n\n";
    forall p: nat ensures !At(padded, HEADING, p) {
      if p + |HEADING| <= |body| {
        assert padded[p..p + |HEADING|] == t[p..p + |HEADING|];
        assert !At(t, HEADING, p);
      } else if p + |HEADING| <= |padded| {
        assert padded[p..p + |HEADING|][|HEADING| - 1] == padded[p + |HEADING| - 1] == '\n';
      }
    }
  }

  predicate NoHash(s: string) {
    forall i :: 0 <= i < |s| ==> s[i] != '#'
  }

  lemma HeaderHashes()
    ensures |HEADER| > 1 && HEADER[0] == '#' && HEADER[1] == ' ' && NoHash(HEADER[1..]) && HEADER[|HEADER| - 1] == '\n'
  {
    assert NoHash(TITLE[1..]);
    NoHashInFile();
    NoHashInFormat();
    NoHashInTags();
    assert HEADER[1..] == TITLE[1..] + (ABOUT_FILE + ABOUT_FORMAT + ABOUT_TAGS);
  }

  lemma NoHashInFile()
    ensures NoHash(ABOUT_FILE)
  {
    assert NoHash("All notable changes to this project are ");
    assert NoHash("documented in this file. The format follows\n");
  }

  lemma NoHashInFormat()
    ensures NoHash(ABOUT_FORMAT)
  {
    assert NoHash("[Keep a Changelog]");
    assert NoHash("(https://keepachangelog.com/en/1.1.0/); ");
    assert NoHash("versions are `major.minor.micro`\n");
  }

  lemma NoHashInTags()
    ensures NoHash(ABOUT_TAGS)
  {
  }

  lemma LoneHash(s: string)
    requires |s| > 1 && NoHash(s[1..])
    ensures NoHeading(s + "\n")
  {
    var t := s + "\n";
    forall p: nat ensures !At(t, HEADING, p) {
      if p + |HEADING| <= |t| {
        var there := t[p..p + |HEADING|];
        assert there[1] == t[p + 1] == s[1..][p];
        assert HEADING[1] == '#';
      }
    }
  }

  lemma HeaderHasNoHeading()
    ensures LineEnd(HEADER + "\n") && NoHeading(HEADER + "\n")
  {
    hide NoHeading;
    HeaderHashes();
    LoneHash(HEADER);
  }

  // ----- reading back

  lemma {:induction false} AfterLineAppend(s: string)
    requires '\n' in s
    ensures AfterLine(s + "\n") == AfterLine(s) + "\n"
  {
    if s[0] == '\n' {
      assert (s + "\n")[1..] == s[1..] + "\n";
    } else {
      assert '\n' in s[1..];
      assert (s + "\n")[1..] == s[1..] + "\n";
      AfterLineAppend(s[1..]);
    }
  }

  lemma {:induction false} StripAppend(s: string)
    ensures StripNewlines(s + "\n") == StripNewlines(s)
  {
    var more := s + "\n";
    if s == "" {
      assert more == "\n" && more[1..] == "";
    } else if s[0] == '\n' {
      assert more[1..] == s[1..] + "\n";
      StripAppend(s[1..]);
    } else {
      assert StripNewlinesLeft(more) == more && more[..|more| - 1] == s;
    }
  }

  lemma ChunkBody(section: string, after: string)
    requires section != "" && LineEnd(section)
    ensures Body(Chunk(section, after)) == Body(section)
  {
    if after != "" {
      AfterLineAppend(section);
      StripAppend(AfterLine(section));
    }
  }

  lemma Middle(a: string, b: string, c: string)
    ensures (a + (b + c))[|a|..|a| + |b|] == b
  {
  }

  lemma SectionShape(section: string, version: string)
    requires IsSection(section, version)
    ensures section != ""
  {
  }

  lemma ExtractAround(before: string, section: string, after: string, version: string)
    requires LineEnd(before) && NoHeading(before) && HeadedOrEmpty(after) && IsSection(section, version)
    ensures Extract(Around(before, section, after), version) == Some(Body(section))
  {
    hide At;
    SpanAround(before, section, after, version);
    Middle(before, Chunk(section, after), after);
    SectionShape(section, version);
    ChunkBody(section, after);
  }

  /** After an insertion the version reads back as the body of what was inserted. */
  lemma ExtractInserted(t: string, version: string, section: string, tagExists: bool)
    requires IsSection(section, version) && Insert(t, version, section, tagExists).Ok?
    ensures Extract(Insert(t, version, section, tagExists).value, version) == Some(Body(section))
  {
    hide *;
    InsertIsAround(t, version, section, tagExists);
    var (before, after) := Places(t, version);
    ExtractAround(before, section, after, version);
  }

  // ----- writing again

  /** Writing a version's section a second time, before it is tagged, replaces the first one. */
  lemma InsertAgainReplaces(t: string, version: string, one: string, two: string, tagExists: bool)
    requires IsSection(one, version) && Insert(t, version, one, tagExists).Ok?
    ensures Insert(Insert(t, version, one, tagExists).value, version, two, false) == Insert(t, version, two, tagExists)
  {
    hide At, Span, Find;
    InsertIsAround(t, version, one, tagExists);
    var (before, after) := Places(t, version);
    InsertsTogether(t, version, one, two, tagExists);
    InsertIsAround(t, version, two, tagExists);
    ReplaceAround(before, one, two, after, version);
  }

  lemma InsertsTogether(t: string, version: string, one: string, two: string, tagExists: bool)
    ensures Insert(t, version, one, tagExists).Ok? <==> Insert(t, version, two, tagExists).Ok?
  {
  }

  lemma ReplaceAround(before: string, one: string, two: string, after: string, version: string)
    requires LineEnd(before) && NoHeading(before) && HeadedOrEmpty(after) && IsSection(one, version)
    ensures Insert(Around(before, one, after), version, two, false) == Ok(Around(before, two, after))
  {
    hide At, Find;
    var t, c := Around(before, one, after), Chunk(one, after);
    SpanAround(before, one, after, version);
    HeadedIsNotBlank(t);
    assert t[..|before|] == before && t[|before| + |c|..] == after;
    if after == "" {
      assert before + two + "" + "" == before + (two + "");
    } else {
      Glue(before, two, after);
    }
  }

  lemma HeadedIsNotBlank(t: string)
    requires Find(t, HEADING, 0).Some?
    ensures !Blank(t)
  {
    var p := Find(t, HEADING, 0).value;
    assert t[p..p + |HEADING|][0] == '#';
    assert t[p] == '#';
  }

  /** An insertion is refused exactly when the version has a section that is released or not the first. */
  lemma RefusedIff(t: string, version: string, section: string, tagExists: bool)
    ensures Insert(t, version, section, tagExists).Err? <==>
            Extract(t, version).Some? && (tagExists || exists p: nat :: At(t, HEADING, p) && p < Span(t, version).value.0)
  {
    if Span(t, version).Some? {
      var start := Span(t, version).value.0;
      AtMark(t, version, start);
      HeadedIsNotBlank(t);
    }
  }

  // ----- the other versions

  lemma MarksDiffer(t: string, v: string, w: string, p: nat)
    requires Plain(v) && Plain(w) && At(t, Mark(v), p) && At(t, Mark(w), p)
    ensures v == w
  {
    var here := t[p..];
    assert here[..|Mark(v)|] == t[p..p + |Mark(v)|] == Mark(v);
    assert here[..|Mark(w)|] == t[p..p + |Mark(w)|] == Mark(w);
    UpToItsBracket(here[|HEADING|..], v);
    UpToItsBracket(here[|HEADING|..], w);
  }

  function UpToBracket(s: string): string {
    if s == "" || s[0] == ']' then "" else [s[0]] + UpToBracket(s[1..])
  }

  lemma {:induction false} UpToItsBracket(s: string, v: string)
    requires ']' !in v && v + "]" <= s
    ensures UpToBracket(s) == v
  {
    assert s[..|v| + 1] == v + "]";
    if v != "" {
      assert s[0] == v[0] && s[1..][..|v|] == v[1..] + "]";
      UpToItsBracket(s[1..], v[1..]);
    }
  }

  /** A chunk headed by one version, with no heading behind that mark, is not marked with another. */
  lemma OnlyItsMark(c: string, v: string, w: string)
    requires Plain(v) && Plain(w) && v != w && At(c, Mark(v), 0)
    requires forall p: nat :: |Mark(v)| <= p ==> !At(c, HEADING, p)
    ensures forall p: nat :: !At(c, Mark(w), p)
  {
    forall p: nat ensures !At(c, Mark(w), p) {
      if 0 < p < |Mark(v)| {
        assert c[p - 1] == c[0..|Mark(v)|][p - 1] == Mark(v)[p - 1];
      } else if At(c, Mark(w), p) {
        AtMark(c, w, p);
        MarksDiffer(c, v, w, 0);
      }
    }
  }

  lemma FindSkip(a: string, b: string, pat: string)
    requires LineEnd(a) && pat != "" && '\n' !in pat && forall p: nat :: !At(a, pat, p)
    ensures Find(a + b, pat, 0) == Behind(|a|, Find(b, pat, 0))
  {
    FindBehind(a, b, pat, 0);
    forall q: nat | q < |a| ensures !At(a + b, pat, q) {
      AtBefore(a, b, pat, q);
    }
    FindFromLater(a + b, pat, |a|);
  }

  /** Text that does not carry a version's heading can be left away when looking for it. */
  lemma ExtractSkip(a: string, b: string, version: string)
    requires LineEnd(a) && Plain(version) && forall p: nat :: !At(a, Mark(version), p)
    ensures Extract(a + b, version) == Extract(b, version)
  {
    hide At;
    SpanSkip(a, b, version);
    if Span(b, version).Some? {
      SliceBehind(a, b, Span(b, version).value.0, Span(b, version).value.1);
    }
  }

  lemma SpanSkip(a: string, b: string, version: string)
    requires LineEnd(a) && Plain(version) && forall p: nat :: !At(a, Mark(version), p)
    ensures Span(a + b, version).Some? <==> Span(b, version).Some?
    ensures Span(b, version).Some? ==>
              Span(a + b, version) == Some((|a| + Span(b, version).value.0, |a| + Span(b, version).value.1))
  {
    hide At;
    FindSkip(a, b, Mark(version));
    var start := Find(b, Mark(version), 0);
    if start.Some? {
      MarkFits(b, version, start.value);
      FindBehind(a, b, HEADING, start.value + |Mark(version)|);
    }
  }

  lemma MarkFits(t: string, version: string, p: nat)
    requires At(t, Mark(version), p)
    ensures p + |Mark(version)| <= |t|
  {
  }

  lemma NotMarked(t: string, version: string)
    requires forall p: nat :: !At(t, Mark(version), p)
    ensures Extract(t, version) == None
  {
  }

  lemma ExtractPastChunk(before: string, c: string, after: string, w: string)
    requires LineEnd(before) && NoHeading(before) && Plain(w) && (after != "" ==> LineEnd(c))
    requires forall p: nat :: !At(c, Mark(w), p)
    ensures Extract(before + (c + after), w) == Extract(after, w)
  {
    hide Extract;
    forall p: nat ensures !At(before, Mark(w), p) {
      if At(before, Mark(w), p) {
        AtMark(before, w, p);
      }
    }
    ExtractSkip(before, c + after, w);
    if after == "" {
      assert c + after == c;
      NotMarked(c, w);
      NotMarked("", w);
    } else {
      ExtractSkip(c, after, w);
    }
  }

  lemma OldChunk(t: string, v: string, w: string)
    requires Plain(v) && Plain(w) && v != w && Span(t, v).Some?
    ensures var (start, end) := Span(t, v).value;
            (end < |t| ==> LineEnd(t[start..end])) && forall p: nat :: !At(t[start..end], Mark(w), p)
  {
    var (start, end) := Span(t, v).value;
    SliceMark(t, Mark(v), start, end);
    NoneWithin(t, start + |Mark(v)|, start, end);
    OnlyItsMark(t[start..end], v, w);
  }

  lemma SliceMark(t: string, pat: string, start: nat, end: nat)
    requires At(t, pat, start) && start + |pat| <= end <= |t|
    ensures At(t[start..end], pat, 0)
  {
    assert t[start..end][0..|pat|] == t[start..start + |pat|];
  }

  lemma SliceOfSlice(t: string, start: nat, end: nat, lo: nat, hi: nat)
    requires start <= end <= |t| && lo <= hi <= end - start
    ensures t[start..end][lo..hi] == t[start + lo..start + hi]
  {
    var c := t[start..end];
    var x, y := c[lo..hi], t[start + lo..start + hi];
    forall k | 0 <= k < hi - lo ensures x[k] == y[k] {
      assert x[k] == c[lo + k] && y[k] == t[start + lo + k];
    }
    assert x == y;
  }

  lemma EmptyUnmarked(version: string)
    ensures forall p: nat :: !At("", Mark(version), p)
  {
  }

  lemma NoneWithin(t: string, from: nat, start: nat, end: nat)
    requires start < from <= end <= |t| && forall p: nat :: from <= p < end ==> !At(t, HEADING, p)
    ensures forall p: nat :: from - start <= p ==> !At(t[start..end], HEADING, p)
  {
    var c := t[start..end];
    forall p: nat | from - start <= p ensures !At(c, HEADING, p) {
      if p + |HEADING| <= |c| {
        SliceOfSlice(t, start, end, p, p + |HEADING|);
        assert !At(t, HEADING, start + p);
      }
    }
  }

  lemma CutTwice(t: string, i: nat, j: nat)
    requires i <= j <= |t|
    ensures t == t[..i] + (t[i..j] + t[j..])
  {
  }

  lemma Unheaded(t: string, version: string)
    requires Find(t, HEADING, 0).None?
    ensures Span(t, version) == None && Extract(t, version) == None
  {
    if Find(t, Mark(version), 0).Some? {
      AtMark(t, version, Find(t, Mark(version), 0).value);
    }
  }

  /** Reading another version, only the text behind the place of this one matters. */
  lemma ExtractBehindPlace(t: string, v: string, w: string, section: string, tagExists: bool)
    requires Plain(v) && Plain(w) && v != w && Insert(t, v, section, tagExists).Ok?
    ensures Extract(t, w) == Extract(Places(t, v).1, w)
  {
    hide At, Extract;
    EmptyUnmarked(w);
    if Find(t, HEADING, 0).None? {
      Unheaded(t, v);
      Unheaded(t, w);
      NotMarked("", w);
    } else {
      HeadedIsNotBlank(t);
      var cut := Find(t, HEADING, 0).value;
      CutBefore(t, cut);
      if Span(t, v).None? {
        CutTwice(t, cut, cut);
        assert t[cut..cut] == "";
        ExtractPastChunk(t[..cut], t[cut..cut], t[cut..], w);
      } else {
        var end := Span(t, v).value.1;
        OldChunk(t, v, w);
        CutTwice(t, cut, end);
        ExtractPastChunk(t[..cut], t[cut..end], t[end..], w);
      }
    }
  }

  /** An insertion changes what no other version reads back as. */
  lemma OthersUnchanged(t: string, v: string, w: string, section: string, tagExists: bool)
    requires Plain(v) && Plain(w) && v != w && IsSection(section, v) && Insert(t, v, section, tagExists).Ok?
    ensures Extract(Insert(t, v, section, tagExists).value, w) == Extract(t, w)
  {
    hide At, Extract, Insert, Places;
    var (before, after) := Places(t, v);
    InsertIsAround(t, v, section, tagExists);
    ChunkIsSection(section, after, v);
    OnlyItsMark(Chunk(section, after), v, w);
    ExtractPastChunk(before, Chunk(section, after), after, w);
    ExtractBehindPlace(t, v, w, section, tagExists);
  }

  // ----- the editor, written out

  /** A line of the text starts with "## [" here. */
  predicate HeadingAt(t: string, p: nat) {
    p + 4 <= |t| && (p == 0 || t[p - 1] == '\n') && t[p] == '#' && t[p + 1] == '#' && t[p + 2] == ' ' && t[p + 3] == '['
  }

  predicate FirstHeadingAt(t: string, p: nat) {
    HeadingAt(t, p) && forall q: nat :: q < p ==> !HeadingAt(t, q)
  }

  /** A heading of this version starts here. */
  predicate VersionAt(t: string, version: string, p: nat) {
    HeadingAt(t, p) && p + |version| + 5 <= |t| && t[p + 4..p + 4 + |version|] == version && t[p + 4 + |version|] == ']'
  }

  lemma AtIsHeading(t: string, p: nat)
    ensures At(t, HEADING, p) <==> HeadingAt(t, p)
  {
    if p + 4 <= |t| {
      var there := t[p..p + 4];
      assert there[0] == t[p] && there[1] == t[p + 1] && there[2] == t[p + 2] && there[3] == t[p + 3];
      assert there == [t[p], t[p + 1], t[p + 2], t[p + 3]];
    }
  }

  lemma AtIsVersion(t: string, version: string, p: nat)
    ensures At(t, Mark(version), p) <==> VersionAt(t, version, p)
  {
    var n := |version|;
    if p + n + 5 <= |t| {
      AtIsHeading(t, p);
      var there := t[p..p + n + 5];
      assert there == t[p..p + 4] + t[p + 4..p + 4 + n] + [t[p + 4 + n]];
      assert Mark(version) == HEADING + version + ['}' , ']'][1..];
      assert there[..4] == t[p..p + 4] && there[4..4 + n] == t[p + 4..p + 4 + n];
      assert Mark(version)[..4] == HEADING && Mark(version)[4..4 + n] == version && Mark(version)[4 + n] == ']';
    }
  }

  /** A version's section runs from its first heading to the next heading of any version, or to the end. */
  lemma SpanMeans(t: string, version: string)
    ensures match Span(t, version)
            case None => forall p: nat :: !VersionAt(t, version, p)
            case Some(span) =>
              && VersionAt(t, version, span.0) && (forall p: nat :: p < span.0 ==> !VersionAt(t, version, p))
              && span.0 + |version| + 5 <= span.1 <= |t| && (span.1 < |t| ==> HeadingAt(t, span.1))
              && forall p: nat :: span.0 + |version| + 5 <= p < span.1 ==> !HeadingAt(t, p)
  {
    hide HeadingAt, VersionAt, At;
    forall p: nat ensures At(t, Mark(version), p) <==> VersionAt(t, version, p) {
      AtIsVersion(t, version, p);
    }
    forall p: nat ensures At(t, HEADING, p) <==> HeadingAt(t, p) {
      AtIsHeading(t, p);
    }
    AtFits(t);
  }

  lemma AtFits(t: string)
    ensures forall p: nat :: At(t, HEADING, p) ==> p < |t|
  {
  }

  lemma HeaderIs()
    ensures HEADER ==
            "# Changelog\n\n"
            + (("All notable changes to this project are " + "documented in this file. The format follows\n")
               + ("[Keep a Changelog]" + "(https://keepachangelog.com/en/1.1.0/); " + "versions are `major.minor.micro`\n")
               + "and every release is tagged `vX.Y.Z`.\n")
  {
  }

  /**
   * Where a section goes. A blank file gets the header; a file without headings gets it at the
   * end behind a blank line; otherwise it goes before the first heading. A section of the same
   * version is replaced when it is the first one and untagged, and refused when it is not.
   */
  lemma InsertMeans(t: string, version: string, section: string, tagExists: bool)
    ensures var r := Insert(t, version, section, tagExists);
            if Blank(t) then r == Ok(HEADER + "\n" + section)
            else match Span(t, version)
            case None =>
              && ((forall p: nat :: !HeadingAt(t, p)) ==> r == Ok(StripNewlinesRight(t) + "\n\n" + section))
              && (forall p: nat :: FirstHeadingAt(t, p) ==> r == Ok(t[..p] + section + "\n" + t[p..]))
            case Some(span) =>
              if tagExists then r == Err(Tagged)
              else if !FirstHeadingAt(t, span.0) then r == Err(NotOnTop)
              else r == Ok(t[..span.0] + section + (if span.1 == |t| then "" else "\n") + t[span.1..])
  {
    hide HeadingAt, VersionAt, At;
    SpanMeans(t, version);
    forall p: nat ensures At(t, HEADING, p) <==> HeadingAt(t, p) {
      AtIsHeading(t, p);
    }
    AtFits(t);
    if Span(t, version).Some? {
      VersionIsHeading(t, version, Span(t, version).value.0);
    }
  }

  lemma VersionIsHeading(t: string, version: string, p: nat)
    requires VersionAt(t, version, p)
    ensures HeadingAt(t, p)
  {
  }

  /** What is extracted: the lines behind a section's heading line, without empty ones at the ends. */
  lemma ExtractMeans(t: string, version: string) returns (line: string, before: string, after: string)
    ensures match Span(t, version)
            case None => Extract(t, version) == None
            case Some(span) =>
              && Extract(t, version).Some?
              && var body := Extract(t, version).value;
                 && '\n' !in line && AllNewlines(before) && AllNewlines(after)
                 && (if '\n' in t[span.0..span.1] then t[span.0..span.1] == line + "\n" + before + body + after else body == "")
                 && (body != "" ==> body[0] != '\n' && body[|body| - 1] != '\n')
  {
    line, before, after := "", "", "";
    if Span(t, version).Some? {
      var (start, end) := Span(t, version).value;
      line := AfterLineMeans(t[start..end]);
      before, after := StripNewlinesMeans(AfterLine(t[start..end]));
    }
  }

  lemma {:induction false} AfterLineMeans(s: string) returns (line: string)
    ensures '\n' !in line
    ensures if '\n' in s then s == line + "\n" + AfterLine(s) else AfterLine(s) == ""
  {
    line := "";
    if s != "" && s[0] != '\n' {
      line := AfterLineMeans(s[1..]);
      line := [s[0]] + line;
      assert s == [s[0]] + s[1..];
    }
  }
}
