/**
 * Collecting, rendering, writing, and doing it again: what a section's text is
 * made of, and which pull requests the next collection finds.
 */
module ReleaseCycle {
  import opened Common
  import opened Sorting
  import opened Text
  import opened Changelog
  import opened ReleaseNotes

  // ----- references in pieces of text

  lemma {:induction false} DigitRunApart(a: string, b: string)
    requires b == "" || !IsDigit(b[0]) || (a != "" && !IsDigit(a[|a| - 1]))
    ensures DigitRun(a + b) == DigitRun(a)
  {
    if a == "" {
      assert a + b == b;
    } else {
      assert (a + b)[1..] == a[1..] + b;
      if IsDigit(a[0]) {
        DigitRunApart(a[1..], b);
      }
    }
  }

  /** Cut where no number is cut, a text refers to what its pieces refer to. */
  lemma {:induction false} ReferencesConcat(a: string, b: string)
    requires b == "" || !IsDigit(b[0]) || LineEnd(a)
    ensures References(a + b) == References(a) + References(b)
  {
    if a == "" {
      assert a + b == b;
    } else {
      assert (a + b)[1..] == a[1..] + b;
      ReferencesConcat(a[1..], b);
      if a[0] == '#' {
        DigitRunApart(a[1..], b);
      }
    }
  }

  lemma {:induction false} HashlessRefersNowhere(s: string)
    requires NoHash(s)
    ensures References(s) == {}
  {
    if s != "" {
      assert NoHash(s[1..]);
      HashlessRefersNowhere(s[1..]);
    }
  }

  lemma {:induction false} ReferencesStrip(s: string)
    ensures References(StripNewlinesRight(s)) == References(s)
  {
    if s != "" && s[|s| - 1] == '\n' {
      var front := s[..|s| - 1];
      ReferencesStrip(front);
      ReferencesNewline(front);
      assert s == front + "\n";
    }
  }

  lemma ReferencesNewline(s: string)
    ensures References(s + "\n") == References(s)
  {
    ReferencesConcat(s, "\n");
    HashlessRefersNowhere("\n");
  }

  lemma HeaderRefersNowhere()
    ensures References(HEADER + "\n") == {}
  {
    HeaderHashes();
    var s := HEADER;
    assert DigitRun(s[1..]) == "";
    HashlessRefersNowhere(s[1..]);
    ReferencesNewline(s);
  }

  lemma {:induction false} DigitRunAll(digits: string, rest: string)
    requires forall k :: 0 <= k < |digits| ==> IsDigit(digits[k])
    requires rest != "" && !IsDigit(rest[0])
    ensures DigitRun(digits + rest) == digits
  {
    if digits == "" {
      assert digits + rest == rest;
    } else {
      assert (digits + rest)[1..] == digits[1..] + rest;
      DigitRunAll(digits[1..], rest);
    }
  }

  /** An entry's text refers to its own pull request. */
  lemma EntryRefers(titles: Titles, pull: PullRequest)
    ensures pull.number in References("- " + EntryOf(titles, pull).entry)
  {
    var (category, text) := titles.classify(pull.title);
    var number, rest := Numeral(pull.number), "](" + pull.url + "))";
    var before, link := "- " + text + " ([", "#" + (number + rest);
    assert "- " + EntryOf(titles, pull).entry == before + link;
    NumeralMeans(pull.number);
    DigitRunAll(number, rest);
    assert link[1..] == number + rest;
    ReferencesConcat(before, link);
  }

  // ----- lines

  lemma {:induction false} JoinRefers(lines: seq<string>, k: nat)
    requires k < |lines|
    ensures References(lines[k]) <= References(JoinLines(lines))
  {
    if |lines| > 1 {
      var rest := JoinLines(lines[1..]);
      var first := lines[0] + "\n";
      ReferencesConcat(first, rest);
      ReferencesNewline(lines[0]);
      if k > 0 {
        JoinRefers(lines[1..], k - 1);
      }
    }
  }

  lemma {:induction false} OfCategoryHas(entries: seq<Entry>, e: Entry)
    requires e in entries
    ensures e in OfCategory(entries, e.category)
  {
    if e != entries[|entries| - 1] {
      OfCategoryHas(entries[..|entries| - 1], e);
    }
  }

  lemma {:induction false} BulletsHave(group: seq<Entry>, e: Entry)
    requires e in group
    ensures "- " + e.entry in Bullets(group)
  {
    if e != group[|group| - 1] {
      BulletsHave(group[..|group| - 1], e);
    }
  }

  lemma GroupHas(entries: seq<Entry>, e: Entry)
    requires e in entries
    ensures "- " + e.entry in GroupLines(entries, e.category)
  {
    OfCategoryHas(entries, e);
    SortByCounts(ByEntryNumber(), OfCategory(entries, e.category));
    var group := Group(entries, e.category);
    assert e in multiset(group);
    BulletsHave(group, e);
  }

  lemma {:induction false} LinesHave(entries: seq<Entry>, categories: seq<Category>, e: Entry)
    requires e in entries && e.category in categories
    ensures "- " + e.entry in LinesOf(entries, categories)
  {
    if e.category == categories[|categories| - 1] {
      GroupHas(entries, e);
    } else {
      LinesHave(entries, categories[..|categories| - 1], e);
    }
  }

  function SectionLines(version: string, date: string, entries: seq<Entry>): seq<string> {
    [HeadLine(version, date), ""] + LinesOf(entries, SECTION_ORDER)
  }

  lemma EveryCategoryIsShown(category: Category)
    ensures category in SECTION_ORDER
  {
    match category
    case Breaking => assert SECTION_ORDER[0] == category;
    case Added => assert SECTION_ORDER[1] == category;
    case Changed => assert SECTION_ORDER[2] == category;
    case Fixed => assert SECTION_ORDER[3] == category;
    case Documentation => assert SECTION_ORDER[4] == category;
  }

  lemma IndexBehind<T>(a: seq<T>, b: seq<T>, x: T) returns (k: nat)
    requires x in b
    ensures k < |a + b| && (a + b)[k] == x
  {
    var j :| 0 <= j < |b| && b[j] == x;
    k := |a| + j;
  }

  /** A section refers to everything its entries refer to. */
  lemma SectionRefers(version: string, date: string, entries: seq<Entry>, e: Entry)
    requires e in entries
    ensures References("- " + e.entry) <= References(Section(version, date, entries))
  {
    hide References, LinesOf, JoinLines, StripNewlinesRight;
    EveryCategoryIsShown(e.category);
    LinesHave(entries, SECTION_ORDER, e);
    var k := IndexBehind([HeadLine(version, date), ""], LinesOf(entries, SECTION_ORDER), "- " + e.entry);
    var text := JoinLines(SectionLines(version, date, entries));
    JoinRefers(SectionLines(version, date, entries), k);
    ReferencesStrip(text);
    ReferencesNewline(StripNewlinesRight(text));
  }

  // ----- a rendered section in the changelog's terms

  lemma AtBeforeNewline(s: string, p: nat)
    ensures At(s + "\n", HEADING, p) <==> At(s, HEADING, p)
  {
    var t := s + "\n";
    if p + |HEADING| <= |s| {
      assert t[p..p + |HEADING|] == s[p..p + |HEADING|];
    } else if p + |HEADING| <= |t| {
      assert t[p..p + |HEADING|][|HEADING| - 1] == t[p + |HEADING| - 1] == '\n';
    }
  }

  lemma NoHeadingNewline(s: string)
    ensures NoHeading(s + "\n") <==> NoHeading(s)
  {
    forall p: nat ensures At(s + "\n", HEADING, p) <==> At(s, HEADING, p) {
      AtBeforeNewline(s, p);
    }
  }

  lemma {:induction false} NoHeadingStrip(s: string)
    ensures NoHeading(StripNewlinesRight(s)) <==> NoHeading(s)
  {
    if s != "" && s[|s| - 1] == '\n' {
      var front := s[..|s| - 1];
      NoHeadingStrip(front);
      NoHeadingNewline(front);
      assert s == front + "\n";
    }
  }

  lemma NoHeadingConcat(a: string, b: string)
    requires LineEnd(a)
    ensures NoHeading(a + b) <==> NoHeading(a) && NoHeading(b)
  {
    forall p: nat | p < |a| ensures At(a + b, HEADING, p) <==> At(a, HEADING, p) {
      AtBefore(a, b, HEADING, p);
    }
    forall p: nat ensures At(a + b, HEADING, |a| + p) <==> At(b, HEADING, p) {
      AtBehind(a, b, HEADING, p);
    }
    if NoHeading(a) && NoHeading(b) {
      forall q: nat ensures !At(a + b, HEADING, q) {
        if q >= |a| {
          AtBehind(a, b, HEADING, q - |a|);
        }
      }
    }
  }

  /** Text made of lines has a heading exactly when one of the lines has. */
  lemma {:induction false} NoHeadingJoin(lines: seq<string>)
    ensures NoHeading(JoinLines(lines)) <==> forall k :: 0 <= k < |lines| ==> NoHeading(lines[k])
  {
    if |lines| > 1 {
      hide NoHeading;
      NoHeadingJoin(lines[1..]);
      NoHeadingNewline(lines[0]);
      NoHeadingConcat(lines[0] + "\n", JoinLines(lines[1..]));
      assert forall k :: 0 < k < |lines| ==> lines[k] == lines[1..][k - 1];
    }
  }

  lemma {:induction false} StripRightConcat(a: string, b: string)
    ensures StripNewlinesRight(a + b) ==
            if StripNewlinesRight(b) == "" then StripNewlinesRight(a) else a + StripNewlinesRight(b)
  {
    if b == "" {
      assert a + b == a;
    } else if b[|b| - 1] == '\n' {
      assert (a + b)[..|a + b| - 1] == a + b[..|b| - 1];
      StripRightConcat(a, b[..|b| - 1]);
    }
  }

  lemma {:induction false} StripBothOfStripped(s: string)
    ensures StripNewlines(StripNewlinesRight(s)) == StripNewlines(s)
  {
    if s != "" && s[|s| - 1] == '\n' {
      var front := s[..|s| - 1];
      StripBothOfStripped(front);
      StripAppend(front);
      assert s == front + "\n";
    }
  }

  /** What stands in a section under its heading line. */
  function Under(entries: seq<Entry>): string {
    var rest := StripNewlinesRight(JoinLines([""] + LinesOf(entries, SECTION_ORDER)));
    if rest == "" then "" else rest + "\n"
  }

  lemma SectionSplit(version: string, date: string, entries: seq<Entry>)
    requires '\n' !in date
    ensures Section(version, date, entries) == (HeadLine(version, date) + "\n") + Under(entries)
  {
    hide HeadLine, LinesOf;
    var head, rest := HeadLine(version, date), JoinLines([""] + LinesOf(entries, SECTION_ORDER));
    var lines := SectionLines(version, date, entries);
    assert lines[1..] == [""] + LinesOf(entries, SECTION_ORDER);
    assert JoinLines(lines) == (head + "\n") + rest;
    StripRightConcat(head + "\n", rest);
    HeadLineStrips(version, date);
    if StripNewlinesRight(rest) != "" {
      Associative(head + "\n", StripNewlinesRight(rest), "\n");
    } else {
      assert (head + "\n") + "" == head + "\n";
    }
  }

  lemma HeadLineStrips(version: string, date: string)
    requires '\n' !in date
    ensures StripNewlinesRight(HeadLine(version, date) + "\n") == HeadLine(version, date)
  {
    var head := HeadLine(version, date);
    assert (head + "\n")[..|head|] == head;
    if date != "" {
      assert head[|head| - 1] == date[|date| - 1];
    } else {
      assert head[|head| - 1] == " - "[2];
    }
  }

  lemma HeadLineMarks(version: string, date: string)
    requires '\n' !in date
    ensures var head := HeadLine(version, date) + "\n";
            At(head, Mark(version), 0) && LineEnd(head) && forall p: nat :: |Mark(version)| <= p ==> !At(head, HEADING, p)
  {
    var mark := Mark(version);
    var head := HeadLine(version, date) + "\n";
    assert head[0..|mark|] == mark;
    forall p: nat | |mark| <= p ensures !At(head, HEADING, p) {
      if p == |mark| {
        assert head[p - 1] == mark[p - 1] == ']';
      } else if p < |head| {
        assert head[p - 1] == (" - " + date)[p - 1 - |mark|];
      }
    }
  }

  lemma UnderHasNoHeadingIff(entries: seq<Entry>)
    ensures NoHeading(Under(entries)) <==> NoHeading(JoinLines([""] + LinesOf(entries, SECTION_ORDER)))
  {
    hide NoHeading;
    var text := JoinLines([""] + LinesOf(entries, SECTION_ORDER));
    NoHeadingStrip(text);
    NoHeadingNewline(StripNewlinesRight(text));
    EmptyHasNoHeading();
  }

  lemma EmptyHasNoHeading()
    ensures NoHeading("")
  {
  }

  /** A line as it is rendered: no heading starts anywhere in it. */
  ghost predicate CleanEntry(e: Entry) {
    NoHeading("- " + e.entry)
  }

  lemma {:induction false} BulletsCleanIff(group: seq<Entry>)
    ensures (forall line :: line in Bullets(group) ==> NoHeading(line)) <==> (forall e :: e in group ==> CleanEntry(e))
  {
    if group != [] {
      var front, last := group[..|group| - 1], group[|group| - 1];
      BulletsCleanIff(front);
      assert group == front + [last];
      assert CleanEntry(last) <==> NoHeading("- " + last.entry);
      if forall line :: line in Bullets(group) ==> NoHeading(line) {
        assert "- " + last.entry in Bullets(group);
        assert forall line :: line in Bullets(front) ==> line in Bullets(group);
      }
    }
  }

  lemma {:induction false} OfCategoryMembers(entries: seq<Entry>, category: Category)
    ensures forall e :: e in OfCategory(entries, category) <==> e in entries && e.category == category
  {
    if entries != [] {
      OfCategoryMembers(entries[..|entries| - 1], category);
      assert entries == entries[..|entries| - 1] + [entries[|entries| - 1]];
    }
  }

  lemma GroupMembers(entries: seq<Entry>, category: Category)
    ensures forall e :: e in Group(entries, category) <==> e in entries && e.category == category
  {
    OfCategoryMembers(entries, category);
    SortByCounts(ByEntryNumber(), OfCategory(entries, category));
    forall e ensures e in Group(entries, category) <==> e in OfCategory(entries, category) {
      assert e in multiset(Group(entries, category)) <==> e in multiset(OfCategory(entries, category));
    }
  }

  lemma OneLineHasNoHeading(line: string)
    requires '\n' !in line && !(HEADING <= line)
    ensures NoHeading(line)
  {
    forall p: nat ensures !At(line, HEADING, p) {
      if p == 0 && |HEADING| <= |line| {
        assert line[0..|HEADING|] == line[..|HEADING|];
      }
    }
  }

  /** An entry of one line starts no heading. */
  lemma SingleLineIsClean(e: Entry)
    requires '\n' !in e.entry
    ensures CleanEntry(e)
  {
    var line := "- " + e.entry;
    assert line[0] == '-' && HEADING[0] == '#';
    OneLineHasNoHeading(line);
  }

  ghost predicate AllClean(lines: seq<string>) {
    forall k :: 0 <= k < |lines| ==> NoHeading(lines[k])
  }

  lemma AllCleanConcat(a: seq<string>, b: seq<string>)
    ensures AllClean(a + b) <==> AllClean(a) && AllClean(b)
  {
    hide NoHeading;
    var all := a + b;
    assert forall k :: 0 <= k < |a| ==> all[k] == a[k];
    assert forall k :: 0 <= k < |b| ==> all[|a| + k] == b[k];
  }

  lemma GroupCleanIff(entries: seq<Entry>, category: Category)
    ensures AllClean(GroupLines(entries, category)) <==> forall e :: e in entries && e.category == category ==> CleanEntry(e)
  {
    hide NoHeading, Group, Bullets, CleanEntry;
    GroupMembers(entries, category);
    var group := Group(entries, category);
    if group != [] {
      var caption := ["### " + Caption(category), ""];
      CaptionClean(category);
      BulletsCleanIff(group);
      assert AllClean(Bullets(group)) <==> forall line :: line in Bullets(group) ==> NoHeading(line);
      AllCleanConcat(caption, Bullets(group));
      AllCleanConcat(caption + Bullets(group), [""]);
    }
  }

  lemma CaptionClean(category: Category)
    ensures AllClean(["### " + Caption(category), ""]) && AllClean([""])
  {
    var line := "### " + Caption(category);
    assert line[2] == '#' && HEADING[2] == ' ';
    OneLineHasNoHeading(line);
    OneLineHasNoHeading("");
  }

  lemma {:induction false} LinesCleanIff(entries: seq<Entry>, categories: seq<Category>)
    ensures AllClean(LinesOf(entries, categories)) <==> forall e :: e in entries && e.category in categories ==> CleanEntry(e)
  {
    hide NoHeading, CleanEntry, GroupLines;
    if categories != [] {
      var front, last := categories[..|categories| - 1], categories[|categories| - 1];
      LinesCleanIff(entries, front);
      GroupCleanIff(entries, last);
      AllCleanConcat(LinesOf(entries, front), GroupLines(entries, last));
      assert categories == front + [last];
    }
  }

  /** A rendered section is one section, and no more, exactly when no entry starts a heading inside itself. */
  lemma SectionIsOneIff(version: string, date: string, entries: seq<Entry>)
    requires '\n' !in date
    ensures IsSection(Section(version, date, entries), version) <==> forall e :: e in entries ==> CleanEntry(e)
  {
    hide *;
    SectionSplit(version, date, entries);
    HeadLineMarks(version, date);
    UnderEnds(entries);
    HeadedIsSectionIff(HeadLine(version, date) + "\n", Under(entries), version);
    UnderHasNoHeadingIff(entries);
    NoHeadingJoin([""] + LinesOf(entries, SECTION_ORDER));
    AllCleanMeans([""] + LinesOf(entries, SECTION_ORDER));
    AllCleanConcat([""], LinesOf(entries, SECTION_ORDER));
    CaptionClean(Breaking);
    LinesCleanIff(entries, SECTION_ORDER);
    forall e: Entry ensures e.category in SECTION_ORDER {
      EveryCategoryIsShown(e.category);
    }
  }

  lemma AllCleanMeans(lines: seq<string>)
    ensures AllClean(lines) <==> forall k :: 0 <= k < |lines| ==> NoHeading(lines[k])
  {
  }

  lemma UnderEnds(entries: seq<Entry>)
    ensures LineEnd(Under(entries))
  {
  }

  lemma HeadedIsSectionIff(head: string, tail: string, version: string)
    requires At(head, Mark(version), 0) && LineEnd(head) && forall p: nat :: |Mark(version)| <= p ==> !At(head, HEADING, p)
    requires LineEnd(tail)
    ensures IsSection(head + tail, version) <==> NoHeading(tail)
  {
    AtStart(head, tail, Mark(version));
    if NoHeading(tail) {
      forall p: nat | |Mark(version)| <= p ensures !At(head + tail, HEADING, p) {
        if p < |head| {
          AtBefore(head, tail, HEADING, p);
        } else {
          AtBehind(head, tail, HEADING, p - |head|);
        }
      }
    } else {
      var p: nat :| At(tail, HEADING, p);
      AtBehind(head, tail, HEADING, p);
    }
  }

  lemma {:induction false} AfterFirstLine(line: string, rest: string)
    requires '\n' !in line
    ensures AfterLine((line + "\n") + rest) == rest
  {
    var s := (line + "\n") + rest;
    if line == "" {
      assert s[1..] == rest;
    } else {
      assert s[1..] == (line[1..] + "\n") + rest;
      AfterFirstLine(line[1..], rest);
    }
  }

  /** What reads back under a rendered section's heading is its notes. */
  lemma SectionBody(version: string, date: string, entries: seq<Entry>)
    requires Plain(version) && '\n' !in date
    ensures Body(Section(version, date, entries)) == Notes(entries)
  {
    hide LinesOf, StripNewlinesRight;
    SectionSplit(version, date, entries);
    AfterFirstLine(HeadLine(version, date), Under(entries));
    UnderStrips(entries);
  }

  lemma UnderStrips(entries: seq<Entry>)
    ensures StripNewlines(Under(entries)) == Notes(entries)
  {
    var lines := LinesOf(entries, SECTION_ORDER);
    var text := JoinLines([""] + lines);
    StripBothOfStripped(text);
    StripAppend(StripNewlinesRight(text));
    assert ([""] + lines)[1..] == lines;
    if lines != [] {
      assert text == "\n" + JoinLines(lines);
      assert text[1..] == JoinLines(lines);
    }
  }

  /** What was rendered and written reads back under its version as the notes of its entries. */
  lemma NotesReadBack(t: string, version: string, date: string, entries: seq<Entry>, tagExists: bool)
    requires Plain(version) && '\n' !in date && forall e :: e in entries ==> CleanEntry(e)
    requires Insert(t, version, Section(version, date, entries), tagExists).Ok?
    ensures Extract(Insert(t, version, Section(version, date, entries), tagExists).value, version) == Some(Notes(entries))
  {
    hide *;
    SectionIsOneIff(version, date, entries);
    ExtractInserted(t, version, Section(version, date, entries), tagExists);
    SectionBody(version, date, entries);
  }

  /** The entries under the captions, in the order they are rendered. */
  function Listed(entries: seq<Entry>, categories: seq<Category>): seq<Entry> {
    if categories == [] then []
    else Listed(entries, categories[..|categories| - 1]) + Group(entries, categories[|categories| - 1])
  }

  lemma {:induction false} OfCategoryCounts(entries: seq<Entry>, category: Category, e: Entry)
    ensures multiset(OfCategory(entries, category))[e] == if e.category == category then multiset(entries)[e] else 0
  {
    if entries != [] {
      OfCategoryCounts(entries[..|entries| - 1], category, e);
      assert entries == entries[..|entries| - 1] + [entries[|entries| - 1]];
    }
  }

  predicate Distinct(categories: seq<Category>) {
    forall i, j :: 0 <= i < j < |categories| ==> categories[i] != categories[j]
  }

  lemma {:induction false} ListedCounts(entries: seq<Entry>, categories: seq<Category>, e: Entry)
    requires Distinct(categories)
    ensures multiset(Listed(entries, categories))[e] == if e.category in categories then multiset(entries)[e] else 0
  {
    if categories != [] {
      hide Group;
      var front, last := categories[..|categories| - 1], categories[|categories| - 1];
      ListedCounts(entries, front, e);
      GroupCounts(entries, last, e);
      assert categories == front + [last] && last !in front;
    }
  }

  lemma GroupCounts(entries: seq<Entry>, category: Category, e: Entry)
    ensures multiset(Group(entries, category))[e] == if e.category == category then multiset(entries)[e] else 0
  {
    SortByCounts(ByEntryNumber(), OfCategory(entries, category));
    OfCategoryCounts(entries, category, e);
  }

  /** Every entry is rendered once, and within a group by number. */
  lemma EveryEntryOnce(entries: seq<Entry>)
    ensures multiset(Listed(entries, SECTION_ORDER)) == multiset(entries)
    ensures forall category :: SortedBy(ByEntryNumber(), Group(entries, category))
  {
    hide Listed, Group;
    forall e: Entry ensures multiset(Listed(entries, SECTION_ORDER))[e] == multiset(entries)[e] {
      EveryCategoryIsShown(e.category);
      ListedCounts(entries, SECTION_ORDER, e);
    }
    forall category ensures SortedBy(ByEntryNumber(), Group(entries, category)) {
      GroupSorted(entries, category);
    }
  }

  lemma GroupSorted(entries: seq<Entry>, category: Category)
    ensures SortedBy(ByEntryNumber(), Group(entries, category))
  {
    SortBySorts(ByEntryNumber(), OfCategory(entries, category));
  }

  // ----- the draft

  lemma {:induction false} TopAt(t: string, from: nat, p: nat)
    requires from <= p && p + |HEADING| <= |t| && At(t, HEADING, p) && Names(t[p + |HEADING|..])
    requires forall q: nat :: from <= q < p ==> !At(t, HEADING, q)
    ensures TopFrom(t, from) == Some(UpToBracket(t[p + |HEADING|..]))
    decreases p - from
  {
    if from < p {
      TopAt(t, from + 1, p);
    }
  }

  lemma {:induction false} UpToBracketFits(s: string)
    ensures |UpToBracket(s)| <= |s| && UpToBracket(s) == s[..|UpToBracket(s)|] && ']' !in UpToBracket(s)
    ensures |UpToBracket(s)| < |s| ==> s[|UpToBracket(s)|] == ']'
  {
    if s != "" && s[0] != ']' {
      UpToBracketFits(s[1..]);
    }
  }

  /** A version that heads the text is found in it. */
  lemma {:induction false} TopIsMarked(t: string, from: nat)
    requires from <= |t| && TopFrom(t, from).Some?
    ensures exists p: nat :: At(t, Mark(TopFrom(t, from).value), p)
    decreases |t| - from
  {
    if At(t, HEADING, from) && Names(t[from + |HEADING|..]) {
      var rest := t[from + |HEADING|..];
      var v := UpToBracket(rest);
      UpToBracketFits(rest);
      assert rest[..|v| + 1] == v + "]";
      assert t[from..from + |Mark(v)|] == t[from..from + |HEADING|] + rest[..|v| + 1];
      assert At(t, Mark(v), from);
    } else if from < |t| {
      TopIsMarked(t, from + 1);
    }
  }

  lemma MarkedRest(t: string, version: string, p: nat)
    requires At(t, Mark(version), p)
    ensures version + "]" <= t[p + |HEADING|..]
  {
    var mark, rest := t[p..p + |Mark(version)|], t[p + |HEADING|..];
    var name := version + "]";
    forall k | 0 <= k < |name| ensures rest[k] == name[k] {
      assert rest[k] == t[p + |HEADING| + k] == mark[|HEADING| + k] == Mark(version)[|HEADING| + k];
    }
  }

  /** When a version's section comes first, that version is the top one. */
  lemma FirstIsTop(t: string, version: string)
    requires Plain(version) && version != ""
    requires Span(t, version).Some? && Find(t, HEADING, 0) == Some(Span(t, version).value.0)
    ensures TopFrom(t, 0) == Some(version)
  {
    var p := Span(t, version).value.0;
    AtMark(t, version, p);
    var rest := t[p + |HEADING|..];
    MarkedRest(t, version, p);
    UpToItsBracket(rest, version);
    TopAt(t, 0, p);
  }

  // ----- writing and collecting again

  /** Putting a section into the changelog as `changelog --write` does: tags are looked up for a version that is there. */
  function Write(t: string, version: string, section: string, tagged: set<string>): Result<string, Conflict> {
    Insert(t, version, section, Extract(t, version).Some? && version in tagged)
  }

  lemma BlankRefersNowhere(t: string)
    requires Blank(t)
    ensures References(t) == {}
  {
    HashlessRefersNowhere(t);
  }

  /** Around a section's place stands what the changelog refers to without that section. */
  lemma PlacesRefer(t: string, version: string, section: string, tagExists: bool)
    requires Insert(t, version, section, tagExists).Ok?
    ensures var (before, after) := Places(t, version);
            References(before) + References(after) == Released(t, Some(version))
  {
    hide At, References;
    if Blank(t) {
      BlankRefersNowhere(t);
      HeaderRefersNowhere();
      EmptyRefersNowhere();
      BlankIsUnheaded(t);
      Unheaded(t, version);
    } else if Find(t, HEADING, 0).None? {
      Unheaded(t, version);
      StrippedRefers(t);
      EmptyRefersNowhere();
    } else {
      var cut := Find(t, HEADING, 0).value;
      CutBefore(t, cut);
      var (before, after) := Places(t, version);
      ReferencesConcat(before, after);
      if Span(t, version).None? {
        assert t == before + after;
      }
    }
  }

  lemma EmptyRefersNowhere()
    ensures References("") == {}
  {
  }

  lemma BlankIsUnheaded(t: string)
    requires Blank(t)
    ensures Find(t, HEADING, 0).None?
  {
    if Find(t, HEADING, 0).Some? {
      HeadedIsNotBlank(t);
    }
  }

  lemma StrippedRefers(t: string)
    ensures References(StripNewlinesRight(t) + "\n\n") == References(t)
  {
    var body := StripNewlinesRight(t);
    ReferencesStrip(t);
    ReferencesNewline(body);
    ReferencesNewline(body + "\n");
    assert body + "\n\n" == (body + "\n") + "\n";
  }

  /** After writing: the version is the top one, and around its section the text refers to what it did before. */
  lemma Written(t: string, version: string, section: string, tagged: set<string>)
    requires Plain(version) && version != "" && IsSection(section, version) && Write(t, version, section, tagged).Ok?
    ensures var t' := Write(t, version, section, tagged).value;
            && TopFrom(t', 0) == Some(version)
            && Released(t', Some(version)) == Released(t, Some(version))
            && References(t') == Released(t, Some(version)) + References(section)
  {
    hide *;
    var tagExists := Extract(t, version).Some? && version in tagged;
    WriteIsInsert(t, version, section, tagged);
    InsertIsAround(t, version, section, tagExists);
    PlacesRefer(t, version, section, tagExists);
    AroundRefers(Places(t, version).0, section, Places(t, version).1, version);
    SpanAround(Places(t, version).0, section, Places(t, version).1, version);
    FirstIsTop(Around(Places(t, version).0, section, Places(t, version).1), version);
  }

  lemma WriteIsInsert(t: string, version: string, section: string, tagged: set<string>)
    ensures Write(t, version, section, tagged) == Insert(t, version, section, Extract(t, version).Some? && version in tagged)
  {
  }

  lemma AroundRefers(before: string, section: string, after: string, version: string)
    requires LineEnd(before) && NoHeading(before) && HeadedOrEmpty(after) && IsSection(section, version)
    ensures var t := Around(before, section, after);
            && Released(t, Some(version)) == References(before) + References(after)
            && References(t) == References(before) + References(after) + References(section)
  {
    hide At, References, NoHeading;
    var t, c := Around(before, section, after), Chunk(section, after);
    SpanAround(before, section, after, version);
    assert t[..|before|] == before && t[|before| + |c|..] == after;
    ReferencesConcat(before, after);
    ReferencesConcat(before, c + after);
    ReferencesConcat(c, after);
    ReferencesNewline(section);
  }

  // ----- what the next collection takes

  lemma {:induction false} KeptAvoids(titles: Titles, pulls: seq<PullRequest>, referenced: set<nat>)
    ensures forall e :: e in Kept(titles, pulls, referenced) ==> e.number !in referenced
  {
    if pulls != [] {
      KeptAvoids(titles, pulls[..|pulls| - 1], referenced);
    }
  }

  lemma {:induction false} KeptHas(titles: Titles, pulls: seq<PullRequest>, referenced: set<nat>, pull: PullRequest)
    requires pull in pulls && Takes(titles, pull, referenced)
    ensures EntryOf(titles, pull) in Kept(titles, pulls, referenced)
  {
    if pull != pulls[|pulls| - 1] {
      KeptHas(titles, pulls[..|pulls| - 1], referenced, pull);
    }
  }

  lemma {:induction false} KeptNone(titles: Titles, pulls: seq<PullRequest>, referenced: set<nat>)
    requires forall pull :: pull in pulls ==> !Takes(titles, pull, referenced)
    ensures Kept(titles, pulls, referenced) == []
  {
    if pulls != [] {
      KeptNone(titles, pulls[..|pulls| - 1], referenced);
    }
  }

  lemma {:induction false} KeptShrinks(titles: Titles, pulls: seq<PullRequest>, fewer: set<nat>, more: set<nat>)
    requires fewer <= more
    requires forall e :: e in Kept(titles, pulls, fewer) ==> e.number !in more
    ensures Kept(titles, pulls, more) == Kept(titles, pulls, fewer)
  {
    if pulls != [] {
      var front, last := pulls[..|pulls| - 1], pulls[|pulls| - 1];
      forall e | e in Kept(titles, front, fewer) ensures e.number !in more {
        assert e in Kept(titles, pulls, fewer);
      }
      KeptShrinks(titles, front, fewer, more);
      if Takes(titles, last, fewer) {
        assert EntryOf(titles, last) in Kept(titles, pulls, fewer);
      }
    }
  }

  /** Referring to more numbers changes a collection exactly when it had taken one of them. */
  lemma UnreleasedSameIff(titles: Titles, pulls: seq<PullRequest>, fewer: set<nat>, more: set<nat>)
    requires fewer <= more
    ensures Unreleased(titles, pulls, more) == Unreleased(titles, pulls, fewer) <==>
            forall e :: e in Unreleased(titles, pulls, fewer) ==> e.number !in more
  {
    var sorted := SortBy(ByPullNumber(), pulls);
    KeptAvoids(titles, sorted, more);
    if forall e :: e in Kept(titles, sorted, fewer) ==> e.number !in more {
      KeptShrinks(titles, sorted, fewer, more);
    }
  }

  lemma ReleasedIsReferred(t: string, draft: Option<string>)
    ensures Released(t, draft) <= References(t)
  {
    if draft.Some? && Span(t, draft.value).Some? {
      hide References;
      var (start, end) := Span(t, draft.value).value;
      var a, c, b := t[..start], t[start..end], t[end..];
      SpanEnds(t, draft.value);
      CutTwice(t, start, end);
      ReferencesConcat(a, c + b);
      ReferencesConcat(c, b);
      ReferencesConcat(a, b);
    }
  }

  lemma SpanEnds(t: string, version: string)
    requires Span(t, version).Some?
    ensures var (start, end) := Span(t, version).value;
            LineEnd(t[..start]) && (LineEnd(t[start..end]) || t[end..] == "")
  {
  }

  /** Where a section can be written, the version has a section before exactly when it is the draft. */
  lemma DraftIff(t: string, version: string, section: string, tagged: set<string>)
    requires Plain(version) && version != "" && version !in tagged && Write(t, version, section, tagged).Ok?
    ensures Draft(t, tagged) == Some(version) <==> Span(t, version).Some?
  {
    hide At;
    if Span(t, version).Some? {
      if Blank(t) {
        BlankIsUnheaded(t);
        Unheaded(t, version);
      }
      FirstIsTop(t, version);
    } else if TopFrom(t, 0) == Some(version) {
      TopIsMarked(t, 0);
    }
  }

  /**
   * Collecting again after a section was written and before its version is tagged finds the
   * same pull requests, exactly when no other version's draft stood on top or none of the
   * numbers found was already mentioned in the file.
   */
  lemma CollectAgainIff(titles: Titles, t: string, tagged: set<string>, pulls: seq<PullRequest>, version: string, date: string)
    requires Plain(version) && version != "" && version !in tagged && '\n' !in date
    requires forall e :: e in Collect(titles, t, tagged, pulls) ==> CleanEntry(e)
    requires Write(t, version, Section(version, date, Collect(titles, t, tagged, pulls)), tagged).Ok?
    ensures var found := Collect(titles, t, tagged, pulls);
            var t' := Write(t, version, Section(version, date, found), tagged).value;
            Collect(titles, t', tagged, pulls) == found <==>
            Draft(t, tagged) == None || Draft(t, tagged) == Some(version) || forall e :: e in found ==> e.number !in References(t)
  {
    hide *;
    var found := Collect(titles, t, tagged, pulls);
    var section := Section(version, date, found);
    SectionIsOneIff(version, date, found);
    Written(t, version, section, tagged);
    DraftIff(t, version, section, tagged);
    var t' := Write(t, version, section, tagged).value;
    CollectUnfold(titles, t, tagged, pulls);
    CollectUnfold(titles, t', tagged, pulls);
    ReleasedIsReferred(t, Draft(t, tagged));
    UnreleasedSameIff(titles, pulls, Released(t, Draft(t, tagged)), References(t));
    TopDraft(t', tagged);
    ReleasedUnfold(t, version);
  }

  lemma CollectUnfold(titles: Titles, t: string, tagged: set<string>, pulls: seq<PullRequest>)
    ensures Collect(titles, t, tagged, pulls) == Unreleased(titles, pulls, Released(t, Draft(t, tagged)))
  {
  }

  lemma TopDraft(t: string, tagged: set<string>)
    ensures TopFrom(t, 0).Some? ==> Draft(t, tagged) == if TopFrom(t, 0).value in tagged then None else TopFrom(t, 0)
  {
  }

  lemma ReleasedUnfold(t: string, version: string)
    ensures Released(t, None) == References(t)
    ensures Span(t, version).None? ==> Released(t, Some(version)) == References(t)
  {
  }

  /** Every pull request is named in the file after its collection was written, or names a release. */
  lemma AllReferred(titles: Titles, t: string, tagged: set<string>, pulls: seq<PullRequest>, version: string, date: string)
    requires Plain(version) && version != "" && version !in tagged && '\n' !in date
    requires forall e :: e in Collect(titles, t, tagged, pulls) ==> CleanEntry(e)
    requires Write(t, version, Section(version, date, Collect(titles, t, tagged, pulls)), tagged).Ok?
    ensures var t' := Write(t, version, Section(version, date, Collect(titles, t, tagged, pulls)), tagged).value;
            TopFrom(t', 0) == Some(version) && forall pull :: pull in pulls ==> !Takes(titles, pull, References(t'))
  {
    hide *;
    var found := Collect(titles, t, tagged, pulls);
    var section := Section(version, date, found);
    SectionIsOneIff(version, date, found);
    Written(t, version, section, tagged);
    DraftIff(t, version, section, tagged);
    var t' := Write(t, version, section, tagged).value;
    var released := Released(t, Draft(t, tagged));
    ReleasedIsReferred(t, Draft(t, tagged));
    ReleasedUnfold(t, version);
    assert released <= References(t');
    forall pull | pull in pulls ensures !Takes(titles, pull, References(t')) {
      TakesUnfold(titles, pull, released);
      TakesUnfold(titles, pull, References(t'));
      if Takes(titles, pull, released) {
        CollectHas(titles, t, tagged, pulls, pull);
        EntryRefers(titles, pull);
        SectionRefers(version, date, found, EntryOf(titles, pull));
      }
    }
  }

  lemma TakesUnfold(titles: Titles, pull: PullRequest, referenced: set<nat>)
    ensures Takes(titles, pull, referenced) <==> pull.number !in referenced && !titles.isRelease(pull.title)
  {
  }

  lemma CollectHas(titles: Titles, t: string, tagged: set<string>, pulls: seq<PullRequest>, pull: PullRequest)
    requires pull in pulls && Takes(titles, pull, Released(t, Draft(t, tagged)))
    ensures EntryOf(titles, pull) in Collect(titles, t, tagged, pulls)
  {
    SortByCounts(ByPullNumber(), pulls);
    assert pull in multiset(SortBy(ByPullNumber(), pulls));
    KeptHas(titles, SortBy(ByPullNumber(), pulls), Released(t, Draft(t, tagged)), pull);
  }

  lemma UnreleasedNone(titles: Titles, pulls: seq<PullRequest>, referenced: set<nat>)
    requires forall pull :: pull in pulls ==> !Takes(titles, pull, referenced)
    ensures Unreleased(titles, pulls, referenced) == []
  {
    SortByCounts(ByPullNumber(), pulls);
    var sorted := SortBy(ByPullNumber(), pulls);
    forall pull | pull in sorted ensures !Takes(titles, pull, referenced) {
      assert pull in multiset(sorted);
    }
    KeptNone(titles, sorted, referenced);
  }

  /** Once the written version is tagged, collecting the same pull requests finds none. */
  lemma NothingAfterTheTag(titles: Titles, t: string, tagged: set<string>, pulls: seq<PullRequest>, version: string, date: string)
    requires Plain(version) && version != "" && version !in tagged && '\n' !in date
    requires forall e :: e in Collect(titles, t, tagged, pulls) ==> CleanEntry(e)
    requires Write(t, version, Section(version, date, Collect(titles, t, tagged, pulls)), tagged).Ok?
    ensures var t' := Write(t, version, Section(version, date, Collect(titles, t, tagged, pulls)), tagged).value;
            Collect(titles, t', tagged + {version}, pulls) == []
  {
    hide *;
    AllReferred(titles, t, tagged, pulls, version, date);
    var t' := Write(t, version, Section(version, date, Collect(titles, t, tagged, pulls)), tagged).value;
    TopDraft(t', tagged + {version});
    CollectUnfold(titles, t', tagged + {version}, pulls);
    ReleasedUnfold(t', version);
    UnreleasedNone(titles, pulls, References(t'));
  }

  /**
   * A draft written again under another version: the pull requests of the draft stand in its
   * old section, and collecting again finds none of them.
   */
  lemma RenumberedDraft(titles: Titles, t: string, tagged: set<string>, pulls: seq<PullRequest>, version: string, date: string)
    requires Plain(version) && version != "" && version !in tagged && '\n' !in date
    requires Draft(t, tagged).Some? && Draft(t, tagged) != Some(version)
    requires forall pull :: pull in pulls ==> pull.number in References(t)
    requires forall e :: e in Collect(titles, t, tagged, pulls) ==> CleanEntry(e)
    requires Write(t, version, Section(version, date, Collect(titles, t, tagged, pulls)), tagged).Ok?
    ensures var t' := Write(t, version, Section(version, date, Collect(titles, t, tagged, pulls)), tagged).value;
            Collect(titles, t', tagged, pulls) == []
  {
    hide *;
    var found := Collect(titles, t, tagged, pulls);
    var section := Section(version, date, found);
    SectionIsOneIff(version, date, found);
    Written(t, version, section, tagged);
    DraftIff(t, version, section, tagged);
    var t' := Write(t, version, section, tagged).value;
    TopDraft(t', tagged);
    CollectUnfold(titles, t', tagged, pulls);
    ReleasedUnfold(t, version);
    forall pull | pull in pulls ensures !Takes(titles, pull, References(t)) {
      TakesUnfold(titles, pull, References(t));
    }
    UnreleasedNone(titles, pulls, References(t));
  }

  const EXAMPLE := PullRequest(7, "x", "y", "")

  /** Titles of no particular kind: every one is a fix, none names a release. */
  function PlainTitles(): Titles {
    Titles((title: string) => (Fixed, title), (title: string) => false)
  }

  lemma ExampleEntry()
    ensures CleanEntry(EntryOf(PlainTitles(), EXAMPLE))
  {
    NumeralMeans(7);
    SingleLineIsClean(EntryOf(PlainTitles(), EXAMPLE));
  }

  lemma OneFound(titles: Titles, pull: PullRequest, referenced: set<nat>)
    ensures Unreleased(titles, [pull], referenced) == if Takes(titles, pull, referenced) then [EntryOf(titles, pull)] else []
  {
    hide EntryOf, Takes;
    SortOne(ByPullNumber(), pull);
    assert [pull][..0] == [];
    assert Kept(titles, [], referenced) == [];
  }

  lemma SortOne<T>(leq: (T, T) -> bool, x: T)
    ensures SortBy(leq, [x]) == [x]
  {
    assert [x][..0] == [];
    assert SortBy(leq, [x][..0]) == [];
  }

  lemma ExampleTakes(referenced: set<nat>)
    ensures Takes(PlainTitles(), EXAMPLE, referenced) <==> 7 !in referenced
  {
  }

  lemma ExampleFound(t: string)
    ensures Collect(PlainTitles(), t, {}, [EXAMPLE]) ==
            if 7 in Released(t, Draft(t, {})) then [] else [EntryOf(PlainTitles(), EXAMPLE)]
  {
    hide *;
    CollectUnfold(PlainTitles(), t, {}, [EXAMPLE]);
    OneFound(PlainTitles(), EXAMPLE, Released(t, Draft(t, {})));
    ExampleTakes(Released(t, Draft(t, {})));
  }

  lemma ExampleVersions()
    ensures Plain("1") && Plain("2") && EXAMPLE.number == 7
  {
  }

  lemma EmptyHasNoDraft()
    ensures Draft("", {}) == None && Released("", None) == {}
  {
  }

  /** One pull request, drafted as 1 and then written as 2: it is found until then, and lost afterwards. */
  lemma RenumberedDraftExample() returns (one: string, two: string)
    ensures var titles, pulls := PlainTitles(), [EXAMPLE];
            && Write("", "1", Section("1", "", Collect(titles, "", {}, pulls)), {}) == Ok(one)
            && Write(one, "2", Section("2", "", Collect(titles, one, {}, pulls)), {}) == Ok(two)
            && Collect(titles, one, {}, pulls) == Collect(titles, "", {}, pulls) != []
            && Collect(titles, two, {}, pulls) == []
  {
    hide *;
    var titles, pulls := PlainTitles(), [EXAMPLE];
    var found := Collect(titles, "", {}, pulls);
    EmptyHasNoDraft();
    ExampleVersions();
    ExampleFound("");
    ExampleEntry();
    var section := Section("1", "", found);
    SectionIsOneIff("1", "", found);
    WriteToEmpty("1", section);
    one := Write("", "1", section, {}).value;
    CollectAgainIff(titles, "", {}, pulls, "1", "");
    AllReferred(titles, "", {}, pulls, "1", "");
    ExampleReferred(one);
    TopDraft(one, {});
    ExampleFound(one);
    WriteUnderAnother(one, section, Section("2", "", Collect(titles, one, {}, pulls)));
    two := Write(one, "2", Section("2", "", Collect(titles, one, {}, pulls)), {}).value;
    RenumberedDraft(titles, one, {}, pulls, "2", "");
  }

  lemma ExampleReferred(t: string)
    requires !Takes(PlainTitles(), EXAMPLE, References(t))
    ensures 7 in References(t)
  {
  }

  lemma WriteToEmpty(version: string, section: string)
    ensures Write("", version, section, {}).Ok?
  {
  }

  lemma WriteUnderAnother(one: string, section: string, other: string)
    requires Plain("1") && Plain("2") && IsSection(section, "1") && Write("", "1", section, {}) == Ok(one)
    ensures Write(one, "2", other, {}).Ok?
  {
    OthersUnchanged("", "1", "2", section, false);
    BlankIsUnheaded("");
    Unheaded("", "2");
    RefusedIff(one, "2", other, false);
  }

  // ----- collecting and rendering, written out

  /** A hash sign with a number behind it that ends here. */
  predicate ReferenceAt(t: string, p: nat, q: nat, n: nat) {
    && p + 1 < q <= |t| && t[p] == '#' && (forall k :: p < k < q ==> '0' <= t[k] <= '9')
    && (q < |t| ==> t[q] < '0' || t[q] > '9') && ValueOf(t[p + 1..q]) == n
  }

  lemma {:induction false} DigitRunMeans(s: string)
    ensures DigitRun(s) <= s && forall k :: 0 <= k < |DigitRun(s)| ==> '0' <= s[k] <= '9'
    ensures |DigitRun(s)| < |s| ==> s[|DigitRun(s)|] < '0' || s[|DigitRun(s)|] > '9'
  {
    if s != "" && IsDigit(s[0]) {
      DigitRunMeans(s[1..]);
    }
  }

  lemma ReferenceShift(t: string, p: nat, q: nat, n: nat)
    requires t != ""
    ensures ReferenceAt(t[1..], p, q, n) <==> ReferenceAt(t, p + 1, q + 1, n)
  {
    if p + 1 < q < |t| {
      assert t[1..][p + 1..q] == t[p + 2..q + 1];
      assert forall k :: p < k < q ==> t[1..][k] == t[k + 1];
      assert forall k :: p + 1 < k < q + 1 ==> t[k] == t[1..][k - 1];
    }
  }

  lemma ReferenceFirst(t: string, q: nat, n: nat)
    requires t != ""
    ensures ReferenceAt(t, 0, q, n) <==>
            t[0] == '#' && DigitRun(t[1..]) != "" && q == |DigitRun(t[1..])| + 1 && ValueOf(DigitRun(t[1..])) == n
  {
    var digits := DigitRun(t[1..]);
    DigitRunMeans(t[1..]);
    assert t[1..|digits| + 1] == digits;
    if ReferenceAt(t, 0, q, n) {
      RunIsUnique(t[1..], q - 1);
      assert t[1..][..q - 1] == t[1..q];
    }
  }

  /** A text refers to exactly the numbers that stand, whole, behind a hash sign. */
  lemma {:induction false} ReferencesMean(t: string, n: nat)
    ensures n in References(t) <==> exists p: nat, q: nat :: ReferenceAt(t, p, q, n)
  {
    hide ReferenceAt, DigitRun, ValueOf;
    if t == "" {
      NoReference(n);
    } else {
      var digits := DigitRun(t[1..]);
      ReferencesMean(t[1..], n);
      ReferenceFirst(t, |digits| + 1, n);
      if p: nat, q: nat :| ReferenceAt(t[1..], p, q, n) {
        ReferenceShift(t, p, q, n);
      }
      if p: nat, q: nat :| ReferenceAt(t, p, q, n) {
        if p == 0 {
          ReferenceFirst(t, q, n);
        } else {
          ReferenceEnds(t, p, q, n);
          ReferenceShift(t, p - 1, q - 1, n);
        }
      }
    }
  }

  lemma ReferenceEnds(t: string, p: nat, q: nat, n: nat)
    requires ReferenceAt(t, p, q, n)
    ensures q > p
  {
  }

  lemma NoReference(n: nat)
    ensures forall p: nat, q: nat :: !ReferenceAt("", p, q, n)
  {
  }

  lemma {:induction false} RunIsUnique(s: string, n: nat)
    requires n <= |s| && (forall k :: 0 <= k < n ==> '0' <= s[k] <= '9') && (n < |s| ==> s[n] < '0' || s[n] > '9')
    ensures DigitRun(s) == s[..n]
  {
    if n > 0 {
      RunIsUnique(s[1..], n - 1);
      assert s[..n] == [s[0]] + s[1..][..n - 1];
    }
  }

  /** A heading that names a version: something without a closing bracket, and a bracket behind it. */
  predicate NamesAt(t: string, version: string, p: nat) {
    VersionAt(t, version, p) && version != "" && ']' !in version
  }

  /** The top version is the one the first naming heading names. */
  lemma {:induction false} TopMeans(t: string, from: nat) returns (p: nat)
    requires from <= |t|
    ensures match TopFrom(t, from)
            case None => forall q: nat, v :: q >= from ==> !NamesAt(t, v, q)
            case Some(version) => p >= from && NamesAt(t, version, p) && forall q: nat, v :: from <= q < p ==> !NamesAt(t, v, q)
    decreases |t| - from
  {
    hide NamesAt;
    assert |HEADING| == 4;
    p := from;
    forall v ensures NamesAt(t, v, from) <==> At(t, HEADING, from) && Names(t[from + 4..]) && UpToBracket(t[from + 4..]) == v {
      NamesHere(t, v, from);
    }
    if At(t, HEADING, from) && Names(t[from + 4..]) {
      assert NamesAt(t, UpToBracket(t[from + 4..]), from);
    } else if from < |t| {
      p := TopMeans(t, from + 1);
    } else {
      NamedWithin(t);
    }
  }

  lemma NamedWithin(t: string)
    ensures forall p: nat, v :: NamesAt(t, v, p) ==> p < |t|
  {
  }

  lemma NamesHere(t: string, v: string, p: nat)
    ensures NamesAt(t, v, p) <==> At(t, HEADING, p) && Names(t[p + 4..]) && UpToBracket(t[p + 4..]) == v
  {
    AtIsHeading(t, p);
    if At(t, HEADING, p) {
      var s := t[p + 4..];
      UpToBracketMeans(s);
      if NamesAt(t, v, p) {
        assert s[..|v|] == t[p + 4..p + 4 + |v|] == v && s[|v|] == ']';
        BracketIsUnique(s, |v|);
      }
      if Names(s) && UpToBracket(s) == v {
        assert t[p + 4..p + 4 + |v|] == s[..|v|];
      }
    }
  }

  lemma {:induction false} UpToBracketMeans(s: string)
    ensures UpToBracket(s) <= s && ']' !in UpToBracket(s)
    ensures |UpToBracket(s)| < |s| ==> s[|UpToBracket(s)|] == ']'
  {
    if s != "" && s[0] != ']' {
      UpToBracketMeans(s[1..]);
    }
  }

  lemma {:induction false} BracketIsUnique(s: string, n: nat)
    requires n < |s| && s[n] == ']' && ']' !in s[..n]
    ensures UpToBracket(s) == s[..n]
  {
    if n > 0 {
      assert s[..n][0] == s[0] && s[..n][1..] == s[1..][..n - 1];
      BracketIsUnique(s[1..], n - 1);
      assert s[..n] == [s[0]] + s[1..][..n - 1];
    }
  }

  /** The pull requests counted as released: those referred to outside the draft, which is the top version while untagged. */
  lemma CollectMeans(titles: Titles, t: string, tagged: set<string>, pulls: seq<PullRequest>)
    ensures var top := TopFrom(t, 0);
            var outside := if top.Some? && top.value !in tagged && Span(t, top.value).Some?
                           then t[..Span(t, top.value).value.0] + t[Span(t, top.value).value.1..] else t;
            Collect(titles, t, tagged, pulls) == Unreleased(titles, pulls, References(outside))
  {
    hide Unreleased, References;
  }

  function Wanted(titles: Titles, referenced: set<nat>): PullRequest -> bool {
    (pull: PullRequest) => !(pull.number in referenced) && !titles.isRelease(pull.title)
  }

  /** The entries: one for each pull request that is neither referred to nor a release, by number. */
  lemma UnreleasedMeans(titles: Titles, pulls: seq<PullRequest>, referenced: set<nat>) returns (sorted: seq<PullRequest>)
    ensures multiset(sorted) == multiset(pulls) && forall i, j :: 0 <= i < j < |sorted| ==> sorted[i].number <= sorted[j].number
    ensures var entries, wanted := Unreleased(titles, pulls, referenced), Where(sorted, Wanted(titles, referenced));
            |entries| == |wanted| && forall j :: 0 <= j < |wanted| ==> entries[j] == EntryOf(titles, wanted[j])
  {
    hide EntryOf, SortBy;
    sorted := SortBy(ByPullNumber(), pulls);
    PullNumbersOrder();
    SortByCounts(ByPullNumber(), pulls);
    SortBySorts(ByPullNumber(), pulls);
    KeptAreWanted(titles, sorted, referenced);
    forall i, j | 0 <= i < j < |sorted| ensures sorted[i].number <= sorted[j].number {
      assert ByPullNumber()(sorted[i], sorted[j]);
    }
  }

  lemma PullNumbersOrder()
    ensures TotalPreorder(ByPullNumber())
  {
  }

  lemma {:induction false} KeptAreWanted(titles: Titles, pulls: seq<PullRequest>, referenced: set<nat>)
    ensures var entries, wanted := Kept(titles, pulls, referenced), Where(pulls, Wanted(titles, referenced));
            |entries| == |wanted| && forall j :: 0 <= j < |wanted| ==> entries[j] == EntryOf(titles, wanted[j])
  {
    hide EntryOf;
    if pulls != [] {
      var front, last := pulls[..|pulls| - 1], pulls[|pulls| - 1];
      LastApart(pulls);
      KeptAreWanted(titles, front, referenced);
      WherePush(front, last, Wanted(titles, referenced));
    }
  }

  // ----- the text of a section

  function BulletText(group: seq<Entry>): string {
    if group == [] then "" else BulletText(group[..|group| - 1]) + ("- " + group[|group| - 1].entry + "\n")
  }

  /** A group under its caption, nothing when it is empty. */
  function GroupText(group: seq<Entry>, caption: string): string {
    if group == [] then "" else "\n### " + caption + "\n\n" + BulletText(group)
  }

  function GroupsText(entries: seq<Entry>): string {
    GroupText(Group(entries, Breaking), "Breaking changes") + GroupText(Group(entries, Added), "Added")
    + GroupText(Group(entries, Changed), "Changed") + GroupText(Group(entries, Fixed), "Fixed")
    + GroupText(Group(entries, Documentation), "Documentation")
  }

  lemma {:induction false} JoinPush(lines: seq<string>, last: string)
    requires lines != []
    ensures JoinLines(lines + [last]) == JoinLines(lines) + "\n" + last
  {
    if |lines| == 1 {
      assert (lines + [last])[1..] == [last];
    } else {
      assert (lines + [last])[1..] == lines[1..] + [last];
      JoinPush(lines[1..], last);
      assert lines[0] + "\n" + (JoinLines(lines[1..]) + "\n" + last) == (lines[0] + "\n" + JoinLines(lines[1..])) + "\n" + last;
    }
  }

  lemma {:induction false} JoinBullets(lines: seq<string>, group: seq<Entry>)
    requires lines != []
    ensures JoinLines(lines + Bullets(group)) + "\n" == JoinLines(lines) + "\n" + BulletText(group)
  {
    hide JoinLines;
    if group == [] {
      NoneAdded(lines);
      NoneAdded(JoinLines(lines) + "\n");
    } else {
      var front, last := group[..|group| - 1], "- " + group[|group| - 1].entry;
      JoinBullets(lines, front);
      Associative(lines, Bullets(front), [last]);
      JoinPush(lines + Bullets(front), last);
      assert JoinLines(lines + Bullets(group)) + "\n" == (JoinLines(lines + Bullets(front)) + "\n") + (last + "\n");
      assert (JoinLines(lines) + "\n" + BulletText(front)) + (last + "\n") == JoinLines(lines) + "\n" + BulletText(group);
    }
  }

  lemma JoinCaption(lines: seq<string>, caption: string)
    requires lines != []
    ensures JoinLines(lines + [caption] + [""]) == JoinLines(lines) + ("\n" + caption + "\n")
  {
    hide JoinLines;
    JoinPush(lines, caption);
    JoinPush(lines + [caption], "");
  }

  /** Lines that end with an empty one, and a group behind them. */
  lemma JoinGroup(lines: seq<string>, entries: seq<Entry>, category: Category)
    requires lines != []
    ensures JoinLines(lines + GroupLines(entries, category)) == JoinLines(lines) + GroupText(Group(entries, category), Caption(category))
  {
    hide JoinLines, Group, Bullets, BulletText, Caption;
    var group := Group(entries, category);
    if group == [] {
      NoneAdded(lines);
      NoneAdded(JoinLines(lines));
    } else {
      JoinFullGroup(lines, group, "### " + Caption(category));
      Flatten(lines, "### " + Caption(category), "", Bullets(group), [""]);
    }
  }

  lemma Flatten<T>(a: seq<T>, x: T, y: T, b: seq<T>, c: seq<T>)
    ensures a + ([x, y] + b + c) == a + [x] + [y] + b + c
  {
  }

  lemma JoinFullGroup(lines: seq<string>, group: seq<Entry>, caption: string)
    requires lines != []
    ensures JoinLines(lines + [caption] + [""] + Bullets(group) + [""])
              == JoinLines(lines) + ("\n" + caption + "\n\n" + BulletText(group))
  {
    hide JoinLines, Bullets, BulletText;
    var captioned := lines + [caption] + [""];
    JoinCaption(lines, caption);
    JoinBullets(captioned, group);
    JoinPush(captioned + Bullets(group), "");
    NoneAdded(JoinLines(captioned + Bullets(group)) + "\n");
    assert "\n" + caption + "\n" + "\n" == "\n" + caption + "\n\n";
  }

  lemma GroupEnds(group: seq<Entry>, caption: string)
    requires forall e :: e in group ==> e.entry != "" && e.entry[|e.entry| - 1] != '\n'
    ensures var text := GroupText(group, caption);
            text != "" ==> |text| > 2 && text[|text| - 1] == '\n' && text[|text| - 2] != '\n'
  {
    if group != [] {
      var last := group[|group| - 1];
      assert last in group;
      var bullet := "- " + last.entry + "\n";
      assert bullet[|bullet| - 2] == last.entry[|last.entry| - 1];
    }
  }

  /**
   * The text of a section: its heading, and under each caption, in the fixed order and only when
   * there are any, the entries of the group as bullets.
   */
  lemma SectionMeans(version: string, date: string, entries: seq<Entry>)
    requires forall e :: e in entries ==> e.entry != "" && e.entry[|e.entry| - 1] != '\n'
    requires date == "" || date[|date| - 1] != '\n'
    ensures Section(version, date, entries) == "## [" + version + "] - " + date + "\n" + GroupsText(entries)
  {
    hide JoinLines, GroupLines, Group, GroupText, StripNewlinesRight, LinesOf, HeadLine;
    var head := HeadLine(version, date);
    var one := [head, ""];
    var two := one + GroupLines(entries, Breaking);
    var three := two + GroupLines(entries, Added);
    var four := three + GroupLines(entries, Changed);
    var five := four + GroupLines(entries, Fixed);
    var six := five + GroupLines(entries, Documentation);
    LinesInOrder(entries);
    FlattenSix(one, GroupLines(entries, Breaking), GroupLines(entries, Added), GroupLines(entries, Changed),
               GroupLines(entries, Fixed), GroupLines(entries, Documentation));
    JoinGroup(one, entries, Breaking);
    JoinGroup(two, entries, Added);
    JoinGroup(three, entries, Changed);
    JoinGroup(four, entries, Fixed);
    JoinGroup(five, entries, Documentation);
    JoinHead(head);
    FlattenSix(head + "\n", GroupText(Group(entries, Breaking), "Breaking changes"), GroupText(Group(entries, Added), "Added"),
               GroupText(Group(entries, Changed), "Changed"), GroupText(Group(entries, Fixed), "Fixed"),
               GroupText(Group(entries, Documentation), "Documentation"));
    GroupsEnd(entries);
    HeadEnds(version, date);
    HeadedOnce(head, GroupsText(entries));
  }

  lemma HeadedOnce(head: string, groups: string)
    requires head != "" && head[|head| - 1] != '\n'
    requires groups != "" ==> |groups| > 2 && groups[|groups| - 1] == '\n' && groups[|groups| - 2] != '\n'
    ensures StripNewlinesRight(head + "\n" + groups) + "\n" == head + "\n" + groups
  {
    StrippedOnce(head + "\n" + groups);
  }

  lemma FlattenSix<T>(a: seq<T>, b: seq<T>, c: seq<T>, d: seq<T>, e: seq<T>, f: seq<T>)
    ensures a + (b + c + d + e + f) == a + b + c + d + e + f
  {
  }

  lemma LinesInOrder(entries: seq<Entry>)
    ensures LinesOf(entries, SECTION_ORDER) ==
            GroupLines(entries, Breaking) + GroupLines(entries, Added) + GroupLines(entries, Changed)
            + GroupLines(entries, Fixed) + GroupLines(entries, Documentation)
  {
    hide GroupLines;
    var order := [Breaking, Added, Changed, Fixed, Documentation];
    assert order[..4] == [Breaking, Added, Changed, Fixed] && order[..4][..3] == [Breaking, Added, Changed];
    assert order[..4][..3][..2] == [Breaking, Added] && order[..4][..3][..2][..1] == [Breaking] && [Breaking][..0] == [];
    assert LinesOf(entries, [Breaking]) == GroupLines(entries, Breaking);
    assert LinesOf(entries, [Breaking, Added]) == GroupLines(entries, Breaking) + GroupLines(entries, Added);
    assert LinesOf(entries, [Breaking, Added, Changed])
        == GroupLines(entries, Breaking) + GroupLines(entries, Added) + GroupLines(entries, Changed);
    assert LinesOf(entries, [Breaking, Added, Changed, Fixed])
        == GroupLines(entries, Breaking) + GroupLines(entries, Added) + GroupLines(entries, Changed) + GroupLines(entries, Fixed);
  }

  lemma JoinHead(head: string)
    ensures JoinLines([head, ""]) == head + "\n"
  {
    assert [head, ""][1..] == [""];
  }

  lemma HeadEnds(version: string, date: string)
    requires date == "" || date[|date| - 1] != '\n'
    ensures var head := HeadLine(version, date); head != "" && head[|head| - 1] != '\n'
    ensures HeadLine(version, date) == "## [" + version + "] - " + date
  {
    assert HEADING + version + "]" + " - " + date == "## [" + version + "] - " + date;
  }

  /** Text that ends with one line end behind something else loses it and gets it back. */
  lemma StrippedOnce(s: string)
    requires |s| > 1 && s[|s| - 1] == '\n' && s[|s| - 2] != '\n'
    ensures StripNewlinesRight(s) + "\n" == s
  {
    var front := s[..|s| - 1];
    assert StripNewlinesRight(front) == front;
    LastApart(s);
  }

  lemma GroupsEnd(entries: seq<Entry>)
    requires forall e :: e in entries ==> e.entry != "" && e.entry[|e.entry| - 1] != '\n'
    ensures var text := GroupsText(entries); text != "" ==> |text| > 2 && text[|text| - 1] == '\n' && text[|text| - 2] != '\n'
  {
    hide GroupText, Group;
    OfGroup(entries, Breaking);
    OfGroup(entries, Added);
    OfGroup(entries, Changed);
    OfGroup(entries, Fixed);
    OfGroup(entries, Documentation);
    GroupEnds(Group(entries, Breaking), "Breaking changes");
    GroupEnds(Group(entries, Added), "Added");
    GroupEnds(Group(entries, Changed), "Changed");
    GroupEnds(Group(entries, Fixed), "Fixed");
    GroupEnds(Group(entries, Documentation), "Documentation");
  }

  /** A group holds the entries of its category. */
  lemma OfGroup(entries: seq<Entry>, category: Category)
    ensures forall e :: e in Group(entries, category) <==> e in entries && e.category == category
  {
    forall e ensures e in Group(entries, category) <==> e in entries && e.category == category {
      GroupCounts(entries, category, e);
      assert multiset(Group(entries, category))[e] > 0 <==> e in Group(entries, category);
      assert multiset(entries)[e] > 0 <==> e in entries;
    }
  }
}
