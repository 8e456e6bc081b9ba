/**
 * The release helper above the changelog text: which pull requests a changelog
 * counts as released, which ones a new section takes, how it is rendered, and
 * what collecting and writing again does.
 */
module ReleaseNotes {
  import opened Common
  import opened Sorting
  import opened Text
  import opened Changelog

  datatype Category = Breaking | Added | Changed | Fixed | Documentation

  datatype PullRequest = PullRequest(number: nat, title: string, url: string, mergedAt: string)

  datatype Entry = Entry(number: nat, title: string, url: string, mergedAt: string, category: Category, entry: string)

  /** What the title patterns say: group and text of a title, and whether it names a release. */
  datatype Titles = Titles(classify: string -> (Category, string), isRelease: string -> bool)

  const SECTION_ORDER := [Breaking, Added, Changed, Fixed, Documentation]

  function Caption(category: Category): string {
    match category
    case Breaking => "Breaking changes"
    case Added => "Added"
    case Changed => "Changed"
    case Fixed => "Fixed"
    case Documentation => "Documentation"
  }

  // ----- numbers and references

  function DigitRun(s: string): string {
    if s != "" && IsDigit(s[0]) then [s[0]] + DigitRun(s[1..]) else ""
  }

  /** Every number that stands behind a hash sign. */
  function References(t: string): set<nat> {
    if t == "" then {}
    else
      var digits := DigitRun(t[1..]);
      (if t[0] == '#' && digits != "" then {ValueOf(digits)} else {}) + References(t[1..])
  }

  function Released(t: string, draft: Option<string>): set<nat> {
    if draft.None? || Span(t, draft.value).None? then References(t)
    else
      var (start, end) := Span(t, draft.value).value;
      References(t[..start] + t[end..])
  }

  /** The version of the first heading that names one. */
  function TopFrom(t: string, from: nat): Option<string>
    requires from <= |t|
    decreases |t| - from
  {
    if At(t, HEADING, from) && Names(t[from + |HEADING|..]) then Some(UpToBracket(t[from + |HEADING|..]))
    else if from == |t| then None
    else TopFrom(t, from + 1)
  }

  predicate Names(s: string) {
    UpToBracket(s) != "" && |UpToBracket(s)| < |s|
  }

  /** The top version while it carries no tag. */
  function Draft(t: string, tagged: set<string>): Option<string> {
    match TopFrom(t, 0)
    case Some(v) => if v in tagged then None else Some(v)
    case None => None
  }

  // ----- collecting

  function EntryOf(titles: Titles, pull: PullRequest): (e: Entry)
    ensures e.number == pull.number && e.title == pull.title && e.url == pull.url && e.mergedAt == pull.mergedAt
    ensures e.category == titles.classify(pull.title).0
    ensures e.entry == titles.classify(pull.title).1 + (" ([#" + Numeral(pull.number) + "](" + pull.url + "))")
    ensures e.entry != "" && e.entry[|e.entry| - 1] == ')'
  {
    var (category, text) := titles.classify(pull.title);
    Entry(pull.number, pull.title, pull.url, pull.mergedAt, category,
          text + " ([#" + Numeral(pull.number) + "](" + pull.url + "))")
  }

  predicate Takes(titles: Titles, pull: PullRequest, referenced: set<nat>) {
    pull.number !in referenced && !titles.isRelease(pull.title)
  }

  function Kept(titles: Titles, pulls: seq<PullRequest>, referenced: set<nat>): seq<Entry> {
    if pulls == [] then []
    else
      var last := pulls[|pulls| - 1];
      Kept(titles, pulls[..|pulls| - 1], referenced) + (if Takes(titles, last, referenced) then [EntryOf(titles, last)] else [])
  }

  function ByPullNumber(): (PullRequest, PullRequest) -> bool {
    (a: PullRequest, b: PullRequest) => a.number <= b.number
  }

  function Unreleased(titles: Titles, pulls: seq<PullRequest>, referenced: set<nat>): seq<Entry> {
    Kept(titles, SortBy(ByPullNumber(), pulls), referenced)
  }

  method SelectUnreleased(titles: Titles, pulls: seq<PullRequest>, referenced: set<nat>) returns (entries: seq<Entry>)
    ensures entries == Unreleased(titles, pulls, referenced)
  {
    var sorted := SortBy(ByPullNumber(), pulls);
    entries := [];
    var i := 0;
    while i < |sorted|
      invariant 0 <= i <= |sorted|
      invariant entries == Kept(titles, sorted[..i], referenced)
    {
      var pull := sorted[i];
      assert sorted[..i + 1][..i] == sorted[..i];
      i := i + 1;
      if pull.number in referenced {
        continue;
      }
      if titles.isRelease(pull.title) {
        continue;
      }
      entries := entries + [EntryOf(titles, pull)];
    }
    assert sorted[..i] == sorted;
  }

  /** What `collect` finds for a changelog and the tags there are. */
  function Collect(titles: Titles, t: string, tagged: set<string>, pulls: seq<PullRequest>): seq<Entry> {
    Unreleased(titles, pulls, Released(t, Draft(t, tagged)))
  }

  // ----- rendering

  function ByEntryNumber(): (Entry, Entry) -> bool {
    (a: Entry, b: Entry) => a.number <= b.number
  }

  function OfCategory(entries: seq<Entry>, category: Category): seq<Entry> {
    if entries == [] then []
    else
      var last := entries[|entries| - 1];
      OfCategory(entries[..|entries| - 1], category) + (if last.category == category then [last] else [])
  }

  function Group(entries: seq<Entry>, category: Category): seq<Entry> {
    SortBy(ByEntryNumber(), OfCategory(entries, category))
  }

  function Bullets(group: seq<Entry>): seq<string> {
    if group == [] then [] else Bullets(group[..|group| - 1]) + ["- " + group[|group| - 1].entry]
  }

  function GroupLines(entries: seq<Entry>, category: Category): seq<string> {
    var group := Group(entries, category);
    if group == [] then [] else ["### " + Caption(category), ""] + Bullets(group) + [""]
  }

  function LinesOf(entries: seq<Entry>, categories: seq<Category>): seq<string> {
    if categories == [] then []
    else LinesOf(entries, categories[..|categories| - 1]) + GroupLines(entries, categories[|categories| - 1])
  }

  function JoinLines(lines: seq<string>): string {
    if lines == [] then ""
    else if |lines| == 1 then lines[0]
    else lines[0] + "\n" + JoinLines(lines[1..])
  }

  function HeadLine(version: string, date: string): string {
    Mark(version) + " - " + date
  }

  function Section(version: string, date: string, entries: seq<Entry>): string {
    StripNewlinesRight(JoinLines([HeadLine(version, date), ""] + LinesOf(entries, SECTION_ORDER))) + "\n"
  }

  method RenderSection(version: string, date: string, entries: seq<Entry>) returns (section: string)
    ensures section == Section(version, date, entries)
  {
    hide HeadLine, GroupLines, JoinLines, StripNewlinesRight;
    var lines := [HeadLine(version, date), ""];
    var i := 0;
    while i < |SECTION_ORDER|
      invariant 0 <= i <= |SECTION_ORDER|
      invariant lines == [HeadLine(version, date), ""] + LinesOf(entries, SECTION_ORDER[..i])
    {
      assert SECTION_ORDER[..i + 1][..i] == SECTION_ORDER[..i];
      Associative([HeadLine(version, date), ""], LinesOf(entries, SECTION_ORDER[..i]), GroupLines(entries, SECTION_ORDER[i]));
      lines := AddGroup(lines, entries, SECTION_ORDER[i]);
      i := i + 1;
    }
    assert SECTION_ORDER[..i] == SECTION_ORDER;
    section := StripNewlinesRight(JoinLines(lines)) + "\n";
  }

  /** One round over the groups: caption, bullets and a blank line, or nothing. */
  method AddGroup(lines: seq<string>, entries: seq<Entry>, category: Category) returns (more: seq<string>)
    ensures more == lines + GroupLines(entries, category)
  {
    var group := Group(entries, category);
    if group == [] {
      more := lines;
    } else {
      var caption := ["### " + Caption(category), ""];
      more := AddBullets(lines + caption, group);
      more := more + [""];
      Associative(lines, caption, Bullets(group));
      Associative(lines, caption + Bullets(group), [""]);
    }
  }

  method AddBullets(lines: seq<string>, group: seq<Entry>) returns (more: seq<string>)
    ensures more == lines + Bullets(group)
  {
    more := lines;
    var j := 0;
    while j < |group|
      invariant 0 <= j <= |group|
      invariant more == lines + Bullets(group[..j])
    {
      assert group[..j + 1][..j] == group[..j];
      Associative(lines, Bullets(group[..j]), ["- " + group[j].entry]);
      more := more + ["- " + group[j].entry];
      j := j + 1;
    }
    assert group[..j] == group;
  }

  /** The notes of a section: its groups without the heading line. */
  function Notes(entries: seq<Entry>): string {
    StripNewlines(JoinLines(LinesOf(entries, SECTION_ORDER)))
  }
}
