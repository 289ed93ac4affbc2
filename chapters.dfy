/**
 * Chapter detection over the lines of a document (`detect_chapters`) and the
 * text of one detected chapter (`extract_chapter_text`).
 */
module Chapters {
  import opened Wrappers
  import opened Text
  import opened Patterns

  /** A heading line as the detection loop records it, before page estimates. */
  datatype Found = Found(number: nat, title: string, lineNumber: nat, fullLine: string)

  /** The estimated last page: a page number, or `"end"` for the last chapter. */
  datatype EndPage = Page(page: nat) | End

  /** One entry of the list `detect_chapters` returns. */
  datatype Chapter = Chapter(number: nat, title: string, lineNumber: nat, fullLine: string, startPage: nat, endPage: EndPage)

  // ---------------------------------------------------------------------
  // One line
  // ---------------------------------------------------------------------

  /**
   * The three heading patterns tried in order on a stripped, non-blank line:
   * `Chapter N: Title`, then `N. Title`, then `Section N: Title`. The title
   * the pattern captured is stripped.
   */
  function ClassifyLine(line: string): (r: Option<Heading>)
    ensures r.Some? <==>
      KeywordHeading(line, "chapter").Some? || NumberedHeading(line).Some? || KeywordHeading(line, "section").Some?
    ensures r.Some? ==> KeywordThenNumber(line, "chapter") || NumberThenTitle(line) || KeywordThenNumber(line, "section")
    ensures KeywordHeading(line, "chapter").Some? ==> r.value.number == KeywordHeading(line, "chapter").value.number
  {
    match KeywordHeading(line, "chapter")
    case Some(h) => Some(Heading(h.number, Strip(h.title)))
    case None =>
      match NumberedHeading(line)
      case Some(h) => Some(Heading(h.number, Strip(h.title)))
      case None =>
        match KeywordHeading(line, "section")
        case Some(h) => Some(Heading(h.number, Strip(h.title)))
        case None => None
  }

  /**
   * What the detection loop records for line `i`: the stripped line with the
   * number and title read from it, when it is not blank and a pattern accepts it.
   */
  function LineHeading(lines: seq<string>, i: nat): (r: Option<Found>)
    requires i < |lines|
    ensures r.Some? <==> Strip(lines[i]) != "" && ClassifyLine(Strip(lines[i])).Some?
    ensures r.Some? ==> r.value.lineNumber == i && r.value.fullLine == Strip(lines[i])
    ensures r.Some? ==> ClassifyLine(r.value.fullLine) == Some(Heading(r.value.number, r.value.title))
  {
    var line := Strip(lines[i]);
    if line == "" then None
    else
      match ClassifyLine(line)
      case Some(h) => Some(Found(h.number, h.title, i, line))
      case None => None
  }

  /** The loop's result for every line, by line index. */
  function Headings(lines: seq<string>): (hs: seq<Option<Found>>)
    ensures |hs| == |lines| && Numbered(hs)
  {
    seq(|lines|, i requires 0 <= i < |lines| => LineHeading(lines, i))
  }

  /** A per-line result sits at the index of its own line. */
  predicate Numbered(hs: seq<Option<Found>>) {
    forall i :: 0 <= i < |hs| && hs[i].Some? ==> hs[i].value.lineNumber == i
  }

  // ---------------------------------------------------------------------
  // The detection loop
  // ---------------------------------------------------------------------

  /** The headings among the first `n` lines, in line order. */
  function Candidates(hs: seq<Option<Found>>, n: nat): (r: seq<Found>)
    requires n <= |hs| && Numbered(hs)
    ensures forall k :: 0 <= k < |r| ==> r[k].lineNumber < n
    ensures forall a, b :: 0 <= a < b < |r| ==> r[a].lineNumber < r[b].lineNumber
    decreases n
  {
    if n == 0 then []
    else if hs[n - 1].Some? then Candidates(hs, n - 1) + [hs[n - 1].value]
    else Candidates(hs, n - 1)
  }

  /** Every recorded heading is the result for its own line. */
  lemma {:induction false} CandidatesSound(hs: seq<Option<Found>>, n: nat, f: Found)
    requires n <= |hs| && Numbered(hs)
    requires f in Candidates(hs, n)
    ensures f.lineNumber < n && hs[f.lineNumber] == Some(f)
    decreases n
  {
    if f in Candidates(hs, n - 1) {
      CandidatesSound(hs, n - 1, f);
    }
  }

  /** Every line with a result is recorded. */
  lemma {:induction false} CandidatesComplete(hs: seq<Option<Found>>, n: nat, i: nat)
    requires i < n <= |hs| && Numbered(hs)
    requires hs[i].Some?
    ensures hs[i].value in Candidates(hs, n)
    decreases n
  {
    if i < n - 1 {
      CandidatesComplete(hs, n - 1, i);
    }
  }

  /**
   * `for i, line in enumerate(lines)`: the headings in line order, given the
   * result for every line.
   */
  method CollectHeadings(hs: seq<Option<Found>>) returns (found: seq<Found>)
    requires Numbered(hs)
    ensures found == Candidates(hs, |hs|)
  {
    found := [];
    for i := 0 to |hs|
      invariant found == Candidates(hs, i)
    {
      if hs[i].Some? {
        found := found + [hs[i].value];
      }
    }
  }

  // ---------------------------------------------------------------------
  // `chapters.sort(key=lambda x: x['number'])`
  // ---------------------------------------------------------------------

  /**
   * The order a stable sort by number leaves headings in that were recorded
   * in line order: by number, and by line among equal numbers.
   */
  predicate Before(a: Found, b: Found) {
    a.number < b.number || (a.number == b.number && a.lineNumber < b.lineNumber)
  }

  predicate Sorted(s: seq<Found>) {
    forall i, j :: 0 <= i < j < |s| ==> Before(s[i], s[j])
  }

  /** `f` placed among the sorted headings `s`, none of which shares its line. */
  function Insert(f: Found, s: seq<Found>): (r: seq<Found>)
    requires Sorted(s)
    requires forall k :: 0 <= k < |s| ==> s[k].lineNumber != f.lineNumber
    ensures Sorted(r) && |r| == |s| + 1
    ensures forall g :: g in r <==> g == f || g in s
  {
    if s == [] || Before(f, s[0]) then [f] + s
    else
      var tail := Insert(f, s[1..]);
      FirstBeforeRest(s);
      assert Before(s[0], f);
      [s[0]] + tail
  }

  lemma FirstBeforeRest(s: seq<Found>)
    requires Sorted(s) && s != []
    ensures forall g :: g in s[1..] ==> Before(s[0], g)
  {
    forall g | g in s[1..]
      ensures Before(s[0], g)
    {
      var j :| 0 <= j < |s[1..]| && s[1..][j] == g;
      assert s[j + 1] == g;
    }
  }

  /** Headings recorded in line order, sorted by number as the stable sort leaves them. */
  function Sort(cs: seq<Found>): (r: seq<Found>)
    requires forall a, b :: 0 <= a < b < |cs| ==> cs[a].lineNumber < cs[b].lineNumber
    ensures Sorted(r) && |r| == |cs|
    ensures forall g :: g in r <==> g in cs
    decreases |cs|
  {
    if cs == [] then []
    else
      var init := cs[..|cs| - 1];
      var sorted := Sort(init);
      assert forall k :: 0 <= k < |sorted| ==> sorted[k] in init;
      Insert(cs[|cs| - 1], sorted)
  }

  /**
   * Two sorted lists holding the same headings are the same list: the order
   * the stable sort produces is the only one `Before` allows.
   */
  lemma {:induction false} SortedUnique(a: seq<Found>, b: seq<Found>)
    requires Sorted(a) && Sorted(b)
    requires forall g :: g in a <==> g in b
    ensures a == b
    decreases |a|
  {
    if a == [] {
      FirstIsMember(b);
    } else {
      assert a[0] in b;
      assert b != [];
      assert b[0] in a;
      FirstBeforeRest(a);
      FirstBeforeRest(b);
      TailMembers(a);
      TailMembers(b);
      assert a[0] == b[0];
      SortedUnique(a[1..], b[1..]);
      assert a == [a[0]] + a[1..] && b == [b[0]] + b[1..];
    }
  }

  lemma FirstIsMember(s: seq<Found>)
    ensures s != [] ==> s[0] in s
  {
  }

  /** Past its first element a sorted list holds everything else it holds, and not that one. */
  lemma TailMembers(s: seq<Found>)
    requires Sorted(s) && s != []
    ensures forall g :: g in s[1..] <==> g in s && g != s[0]
  {
    FirstBeforeRest(s);
    forall g | g in s && g != s[0]
      ensures g in s[1..]
    {
      var i :| 0 <= i < |s| && s[i] == g;
      assert s[1..][i - 1] == g;
    }
  }

  /**
   * `Sort` is the stable sort by number: any sorted arrangement of the same
   * headings is the one it returns.
   */
  lemma SortIsStableSort(cs: seq<Found>, r: seq<Found>)
    requires forall a, b :: 0 <= a < b < |cs| ==> cs[a].lineNumber < cs[b].lineNumber
    requires Sorted(r) && forall g :: g in r <==> g in cs
    ensures r == Sort(cs)
  {
    SortedUnique(r, Sort(cs));
  }

  // ---------------------------------------------------------------------
  // Page estimates
  // ---------------------------------------------------------------------

  /** `max(1, (line_number * 100) // total_lines)` */
  function PageOf(lineNumber: nat, totalLines: nat): (p: nat)
    requires totalLines > 0
    ensures p >= 1
    ensures lineNumber < totalLines ==> p < 100
  {
    var q := lineNumber * 100 / totalLines;
    QuotientBound(lineNumber, totalLines);
    if q < 1 then 1 else q
  }

  lemma QuotientBound(lineNumber: nat, totalLines: nat)
    requires totalLines > 0
    ensures lineNumber < totalLines ==> lineNumber * 100 / totalLines < 100
  {
    if lineNumber < totalLines {
      var q := lineNumber * 100 / totalLines;
      assert q * totalLines <= lineNumber * 100 < totalLines * 100;
    }
  }

  /** The `i`-th sorted heading with its page estimates. */
  function WithPages(found: seq<Found>, i: nat, totalLines: nat): Chapter
    requires i < |found| && totalLines > 0
  {
    var f := found[i];
    var start := if i == 0 then 1 else PageOf(f.lineNumber, totalLines);
    var end := if i == |found| - 1 then End else Page(PageOf(found[i + 1].lineNumber, totalLines));
    Chapter(f.number, f.title, f.lineNumber, f.fullLine, start, end)
  }

  function Paged(found: seq<Found>, totalLines: nat): (r: seq<Chapter>)
    requires totalLines > 0
    ensures |r| == |found|
  {
    seq(|found|, i requires 0 <= i < |found| => WithPages(found, i, totalLines))
  }

  /** The chapters made from the per-line results `hs` of a text. */
  function ChaptersFrom(hs: seq<Option<Found>>): seq<Chapter>
    requires |hs| > 0 && Numbered(hs)
  {
    Paged(Sort(Candidates(hs, |hs|)), |hs|)
  }

  /** What `detect_chapters` returns for a text. */
  function DetectedChapters(text: string): seq<Chapter> {
    ChaptersFrom(Headings(Split(text, "\n")))
  }

  /** The page loop of `detect_chapters` over the sorted headings. */
  method AddPages(sorted: seq<Found>, total: nat) returns (chapters: seq<Chapter>)
    requires total > 0
    ensures chapters == Paged(sorted, total)
  {
    chapters := [];
    for i := 0 to |sorted|
      invariant chapters == Paged(sorted, total)[..i]
    {
      var start := if i == 0 then 1 else PageOf(sorted[i].lineNumber, total);
      var end := if i == |sorted| - 1 then End else Page(PageOf(sorted[i + 1].lineNumber, total));
      var f := sorted[i];
      chapters := chapters + [Chapter(f.number, f.title, f.lineNumber, f.fullLine, start, end)];
    }
  }

  /** `detect_chapters(text)`: the detection loop, the sort and the page loop. */
  method DetectChapters(text: string) returns (chapters: seq<Chapter>)
    ensures chapters == DetectedChapters(text)
  {
    var lines := Split(text, "\n");
    var found := CollectHeadings(Headings(lines));
    var sorted := Sort(found);
    chapters := AddPages(sorted, |lines|);
  }

  // ---------------------------------------------------------------------
  // What the detected chapters satisfy
  // ---------------------------------------------------------------------

  /** The chapters come in order of number, ties in order of line. */
  lemma ChaptersSorted(hs: seq<Option<Found>>, i: nat, j: nat)
    requires |hs| > 0 && Numbered(hs) && i < j < |ChaptersFrom(hs)|
    ensures ChaptersFrom(hs)[i].number <= ChaptersFrom(hs)[j].number
    ensures ChaptersFrom(hs)[i].number == ChaptersFrom(hs)[j].number ==>
      ChaptersFrom(hs)[i].lineNumber < ChaptersFrom(hs)[j].lineNumber
  {
    var found := Sort(Candidates(hs, |hs|));
    assert Before(found[i], found[j]);
  }

  /** The heading a chapter was made from. */
  function FoundOf(c: Chapter): Found {
    Found(c.number, c.title, c.lineNumber, c.fullLine)
  }

  /** Every chapter is the result recorded for its own line. */
  lemma ChaptersSound(hs: seq<Option<Found>>, i: nat)
    requires |hs| > 0 && Numbered(hs) && i < |ChaptersFrom(hs)|
    ensures ChaptersFrom(hs)[i].lineNumber < |hs|
    ensures hs[ChaptersFrom(hs)[i].lineNumber] == Some(FoundOf(ChaptersFrom(hs)[i]))
  {
    var found := Sort(Candidates(hs, |hs|));
    assert FoundOf(ChaptersFrom(hs)[i]) == found[i];
    CandidatesSound(hs, |hs|, found[i]);
  }

  /** Every line with a result becomes a chapter. */
  lemma ChaptersComplete(hs: seq<Option<Found>>, line: nat)
    requires |hs| > 0 && Numbered(hs) && line < |hs| && hs[line].Some?
    ensures exists i :: 0 <= i < |ChaptersFrom(hs)| && FoundOf(ChaptersFrom(hs)[i]) == hs[line].value
  {
    CandidatesComplete(hs, |hs|, line);
    var found := Sort(Candidates(hs, |hs|));
    var i :| 0 <= i < |found| && found[i] == hs[line].value;
    assert FoundOf(ChaptersFrom(hs)[i]) == found[i];
  }

  /**
   * Detection in terms of the text: every chapter sits on a non-blank line a
   * heading pattern accepts, with the number and title read from that line,
   * and every such line is a chapter.
   */
  lemma DetectedAreHeadings(text: string)
    ensures var lines := Split(text, "\n"); var cs := DetectedChapters(text);
      forall c :: c in cs ==> c.lineNumber < |lines| && LineHeading(lines, c.lineNumber) == Some(FoundOf(c))
    ensures var lines := Split(text, "\n"); var cs := DetectedChapters(text);
      forall l :: 0 <= l < |lines| && LineHeading(lines, l).Some? ==> exists c :: c in cs && FoundOf(c) == LineHeading(lines, l).value
  {
    var lines := Split(text, "\n");
    var hs := Headings(lines);
    var cs := DetectedChapters(text);
    forall c | c in cs
      ensures c.lineNumber < |lines| && LineHeading(lines, c.lineNumber) == Some(FoundOf(c))
    {
      var i :| 0 <= i < |cs| && cs[i] == c;
      ChaptersSound(hs, i);
    }
    forall l | 0 <= l < |lines| && LineHeading(lines, l).Some?
      ensures exists c :: c in cs && FoundOf(c) == LineHeading(lines, l).value
    {
      assert hs[l] == LineHeading(lines, l);
      ChaptersComplete(hs, l);
      var i :| 0 <= i < |cs| && FoundOf(cs[i]) == hs[l].value;
      assert cs[i] in cs;
    }
  }

  /**
   * The page estimates: the first chapter starts on page 1, every page is
   * between 1 and 99, only the last chapter ends at `"end"`, and each chapter
   * ends on the page where the next one starts.
   */
  lemma ChapterPages(hs: seq<Option<Found>>, i: nat)
    requires |hs| > 0 && Numbered(hs) && i < |ChaptersFrom(hs)|
    ensures 1 <= ChaptersFrom(hs)[i].startPage < 100
    ensures i == 0 ==> ChaptersFrom(hs)[i].startPage == 1
    ensures ChaptersFrom(hs)[i].endPage == End <==> i == |ChaptersFrom(hs)| - 1
    ensures i + 1 < |ChaptersFrom(hs)| ==> ChaptersFrom(hs)[i].endPage == Page(ChaptersFrom(hs)[i + 1].startPage)
    ensures ChaptersFrom(hs)[i].endPage.Page? ==> 1 <= ChaptersFrom(hs)[i].endPage.page < 100
  {
    var found := Sort(Candidates(hs, |hs|));
    CandidatesSound(hs, |hs|, found[i]);
    if i + 1 < |found| {
      CandidatesSound(hs, |hs|, found[i + 1]);
    }
    PagedPages(found, |hs|, i);
  }

  /** The page estimates of `Paged`, for headings that lie within the text. */
  lemma PagedPages(found: seq<Found>, totalLines: nat, i: nat)
    requires totalLines > 0 && i < |found| && found[i].lineNumber < totalLines
    requires i + 1 < |found| ==> found[i + 1].lineNumber < totalLines
    ensures 1 <= Paged(found, totalLines)[i].startPage < 100
    ensures i == 0 ==> Paged(found, totalLines)[i].startPage == 1
    ensures Paged(found, totalLines)[i].endPage == End <==> i == |found| - 1
    ensures i + 1 < |found| ==> Paged(found, totalLines)[i].endPage == Page(Paged(found, totalLines)[i + 1].startPage)
    ensures Paged(found, totalLines)[i].endPage.Page? ==> 1 <= Paged(found, totalLines)[i].endPage.page < 100
  {
    assert Paged(found, totalLines)[i] == WithPages(found, i, totalLines);
    if i + 1 < |found| {
      assert Paged(found, totalLines)[i + 1] == WithPages(found, i + 1, totalLines);
    }
  }

  // ---------------------------------------------------------------------
  // `extract_chapter_text`
  // ---------------------------------------------------------------------

  /**
   * The test a later line must pass to end the chapter: after stripping it is
   * not blank, it holds one of the words `Chapter`, `CHAPTER`, `Section` or
   * `SECTION` exactly as written, and it begins like a chapter or section
   * heading (in any case) or like a numbered heading.
   */
  predicate IsBoundary(raw: string) {
    var line := Strip(raw);
    && line != ""
    && (Contains(line, "Chapter") || Contains(line, "CHAPTER") || Contains(line, "Section") || Contains(line, "SECTION"))
    && (KeywordThenNumber(line, "chapter") || KeywordThenNumber(line, "section") || NumberThenTitle(line))
  }

  /** The first boundary line at or after `from`, or the number of lines when there is none. */
  function ChapterEnd(lines: seq<string>, from: nat): (e: nat)
    ensures from <= |lines| ==> from <= e
    ensures e <= |lines| && (from >= |lines| ==> e == |lines|)
    ensures forall k :: from <= k < e ==> !IsBoundary(lines[k])
    ensures e < |lines| ==> IsBoundary(lines[e])
    decreases |lines| - from
  {
    if from >= |lines| then |lines|
    else if IsBoundary(lines[from]) then from
    else ChapterEnd(lines, from + 1)
  }

  /**
   * The text of the chapter whose heading is on line `lineNumber`: its lines
   * up to the next boundary, joined by newlines; nothing past the last line.
   */
  function ChapterLines(lines: seq<string>, lineNumber: nat): string {
    if lineNumber >= |lines| then ""
    else Join(lines[lineNumber..ChapterEnd(lines, lineNumber + 1)], "\n")
  }

  function ChapterText(fullText: string, lineNumber: nat): string {
    ChapterLines(Split(fullText, "\n"), lineNumber)
  }

  /** `extract_chapter_text(full_text, chapter_data)` for the chapter's `line_number`. */
  method ExtractChapterText(fullText: string, lineNumber: nat) returns (text: string)
    ensures text == ChapterText(fullText, lineNumber)
  {
    var lines := Split(fullText, "\n");
    var end := |lines|;
    var i := lineNumber + 1;
    while i < |lines|
      invariant ChapterEnd(lines, i) == ChapterEnd(lines, lineNumber + 1)
      invariant end == |lines|
      decreases |lines| - i
    {
      if IsBoundary(lines[i]) {
        end := i;
        break;
      }
      i := i + 1;
    }
    if lineNumber >= |lines| {
      text := "";
    } else {
      text := Join(lines[lineNumber..end], "\n");
    }
  }

  /** The text from any line opens with that line and holds it stripped. */
  lemma OpensWithLine(lines: seq<string>, l: nat)
    requires l < |lines|
    ensures StartsWith(ChapterLines(lines, l), lines[l])
    ensures Contains(ChapterLines(lines, l), Strip(lines[l]))
  {
    var parts := lines[l..ChapterEnd(lines, l + 1)];
    JoinStartsWithFirst(parts, "\n");
    var body := ChapterLines(lines, l);
    assert OccursAt(body, lines[l], 0);
    StripIsPiece(lines[l]);
    ContainsTransitive(body, lines[l], Strip(lines[l]));
  }

  /**
   * A chapter's text opens with its heading line and holds the stripped
   * heading the detection recorded.
   */
  lemma ChapterTextOpensWithHeading(text: string, c: Chapter)
    requires c in DetectedChapters(text)
    ensures c.lineNumber < |Split(text, "\n")|
    ensures StartsWith(ChapterText(text, c.lineNumber), Split(text, "\n")[c.lineNumber])
    ensures Contains(ChapterText(text, c.lineNumber), c.fullLine)
  {
    var lines := Split(text, "\n");
    DetectedAreHeadings(text);
    OpensWithLine(lines, c.lineNumber);
  }
}
