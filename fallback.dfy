/**
 * The offline summary `HybridAI` writes for a chunk when the service cannot:
 * the first title line of the chunk as heading, its first five key sentences,
 * and a word count for a long chunk.
 */
module Fallback {
  import opened Text
  import opened Patterns

  // ---------------------------------------------------------------------
  // The fallback summary
  // ---------------------------------------------------------------------

  /** `re.match(r'^Chapter\s+\d+', line, re.IGNORECASE)` or `re.match(r'^\d+\.\s+[A-Z]', line)` */
  predicate IsTitleLine(line: string) {
    KeywordThenNumber(line, "chapter") || NumberDotTitle(line, false)
  }

  /** The medical terms that make a line a key sentence. */
  const KeyTerms: seq<string> := ["definition", "diagnosis", "treatment", "symptoms", "causes", "risk", "management"]

  /** A line of more than 20 characters that mentions one of the key terms, in any case. */
  predicate IsKeySentence(line: string) {
    |line| > 20 && exists i :: 0 <= i < |KeyTerms| && Contains(Lower(line), KeyTerms[i])
  }

  /**
   * Case does not hide a key term: a line that spells "risk" with the Kelvin
   * sign, which `str.lower()` turns into `k`, is a key sentence.
   */
  lemma KelvinSpellingIsKeySentence()
    ensures IsKeySentence("Assessing the RIS\U{212A} of relapse")
  {
    var low := Lower("Assessing the RIS\U{212A} of relapse");
    assert low[14] == 'r' && low[15] == 'i' && low[16] == 's' && low[17] == 'k';
    assert low[14..18] == KeyTerms[5];
    assert OccursAt(low, KeyTerms[5], 14);
  }

  /** The two kinds of line the fallback summary collects. */
  datatype LineKind = TitleLine | KeySentence

  predicate Selects(kind: LineKind, line: string) {
    match kind
    case TitleLine => IsTitleLine(line)
    case KeySentence => IsKeySentence(line)
  }

  /** The stripped, non-empty lines of one kind, in their order in the text. */
  function Picked(lines: seq<string>, kind: LineKind): (r: seq<string>)
    ensures |r| <= |lines|
    decreases |lines|
  {
    if lines == [] then []
    else
      var line := Strip(lines[|lines| - 1]);
      Picked(lines[..|lines| - 1], kind) + (if line != "" && Selects(kind, line) then [line] else [])
  }

  /** Every stripped, non-empty line of the kind is collected. */
  lemma {:induction false} PickedComplete(lines: seq<string>, kind: LineKind, i: nat)
    requires i < |lines| && Strip(lines[i]) != "" && Selects(kind, Strip(lines[i]))
    ensures Strip(lines[i]) in Picked(lines, kind)
    decreases |lines|
  {
    if i < |lines| - 1 {
      var front := lines[..|lines| - 1];
      assert front[i] == lines[i];
      PickedComplete(front, kind, i);
    }
  }

  /** Every collected line is the stripped form of a line of the text, non-empty and of the kind. */
  lemma {:induction false} PickedSound(lines: seq<string>, kind: LineKind, k: nat)
    requires k < |Picked(lines, kind)|
    ensures exists i :: 0 <= i < |lines| && Picked(lines, kind)[k] == Strip(lines[i])
    ensures Picked(lines, kind)[k] != "" && Selects(kind, Picked(lines, kind)[k])
    decreases |lines|
  {
    var front := lines[..|lines| - 1];
    if k < |Picked(front, kind)| {
      PickedSound(front, kind, k);
      var i :| 0 <= i < |front| && Picked(front, kind)[k] == Strip(front[i]);
      assert front[i] == lines[i];
    } else {
      assert Picked(lines, kind)[k] == Strip(lines[|lines| - 1]);
    }
  }

  /** The first part: the first title found, or a generic section heading. */
  function FallbackHeading(titles: seq<string>, chunkNum: nat): string {
    "## " + (if titles != [] then "Chapter " + NatToString(chunkNum) + ": " + titles[0]
             else "Section " + NatToString(chunkNum) + ": Content Overview")
  }

  /** `f"{i}. {sentence}"` for the first five key sentences, counted from 1. */
  function KeyPoints(sentences: seq<string>): (r: seq<string>)
    ensures |r| == Min(5, |sentences|)
  {
    var n := Min(5, |sentences|);
    seq(n, i requires 0 <= i < n => NatToString(i + 1) + ". " + sentences[i])
  }

  /** The sentence that reports the length of a long text. */
  function WordCountLine(words: nat): string {
    "This section " + "contains approximately " + NatToString(words) + " words covering " + "medical content."
  }

  /** The last sentence of the overview (kept in short pieces, which is cheaper for the verifier). */
  const ClosingLine: string :=
    "The text includes " + "definitions, " + "diagnostic criteria, " + "treatment approaches, " + "and clinical guidelines."

  /** The closing parts, present only for a text of more than 100 words. */
  function Overview(words: nat): (r: seq<string>)
    ensures words > 100 ==> |r| == 3 && r[1] == WordCountLine(words)
    ensures words <= 100 ==> r == []
  {
    if words > 100 then
      [ "\n### " + "Content Overview:"
      , WordCountLine(words)
      , ClosingLine
      ]
    else []
  }

  /** The `summary_parts` built from the titles, the key sentences and the word count found. */
  function Render(titles: seq<string>, sentences: seq<string>, words: nat, chunkNum: nat): (parts: seq<string>)
    ensures parts != [] && parts[0] == FallbackHeading(titles, chunkNum)
    ensures sentences != [] ==> |parts| >= 2 + Min(5, |sentences|)
    ensures sentences != [] ==> forall i :: 0 <= i < Min(5, |sentences|) ==> parts[2 + i] == KeyPoints(sentences)[i]
    ensures words > 100 ==> |parts| >= 3 && parts[|parts| - 2] == WordCountLine(words)
  {
    [FallbackHeading(titles, chunkNum)]
      + (if sentences != [] then ["### Key Points:"] + KeyPoints(sentences) else [])
      + Overview(words)
  }

  /** The `summary_parts` of `_create_fallback_summary(text, chunk_num, ...)`. */
  function FallbackParts(text: string, chunkNum: nat): (parts: seq<string>)
    ensures parts != []
  {
    var lines := Split(text, "\n");
    Render(Picked(lines, TitleLine), Picked(lines, KeySentence), WordCount(text), chunkNum)
  }

  /** `_create_fallback_summary(text, chunk_num, total_chunks)`; the total is not used. */
  function FallbackSummary(text: string, chunkNum: nat): string {
    Join(FallbackParts(text, chunkNum), "\n\n")
  }

  /** A string contains its own tail. */
  lemma ContainsSuffix(a: string, b: string)
    ensures Contains(a + b, b)
  {
    assert (a + b)[|a|..|a + b|] == b;
    ContainsSlice(a + b, |a|, |a + b|);
  }

  /** A summary that reports a failed chunk begins with this text. */
  const FailedChunkPrefix: string := "Error processing chunk"

  predicate ChunkFailed(summary: string) {
    StartsWith(summary, FailedChunkPrefix)
  }

  /** A rendered summary opens with its markdown heading, so it never reads as a failed chunk. */
  lemma RenderedHeading(titles: seq<string>, sentences: seq<string>, words: nat, chunkNum: nat)
    ensures var s := Join(Render(titles, sentences, words, chunkNum), "\n\n");
      StartsWith(s, FallbackHeading(titles, chunkNum)) && StartsWith(s, "## ") && !ChunkFailed(s)
  {
    var parts := Render(titles, sentences, words, chunkNum);
    var s := Join(parts, "\n\n");
    var heading := parts[0];
    JoinStartsWithFirst(parts, "\n\n");
    assert heading == "## " + heading[3..];
    StartsWithAppend("## ", heading[3..]);
    StartsWithTransitive(s, heading, "## ");
    StartsWithFirst(s, "## ");
    if ChunkFailed(s) {
      StartsWithFirst(s, FailedChunkPrefix);
    }
  }

  /**
   * The fallback summary opens with its heading: the first title line of the
   * text when there is one. It is a markdown heading, so it never reads as a
   * failed chunk.
   */
  lemma FallbackSummaryHeading(text: string, chunkNum: nat)
    ensures var titles := Picked(Split(text, "\n"), TitleLine);
      StartsWith(FallbackSummary(text, chunkNum), FallbackHeading(titles, chunkNum))
    ensures StartsWith(FallbackSummary(text, chunkNum), "## ")
    ensures !ChunkFailed(FallbackSummary(text, chunkNum))
  {
    var lines := Split(text, "\n");
    RenderedHeading(Picked(lines, TitleLine), Picked(lines, KeySentence), WordCount(text), chunkNum);
  }

  /** Each of the first five key sentences appears in a rendered summary. */
  lemma RenderedKeepsSentence(titles: seq<string>, sentences: seq<string>, words: nat, chunkNum: nat, i: nat)
    requires i < 5 && i < |sentences|
    ensures Contains(Join(Render(titles, sentences, words, chunkNum), "\n\n"), sentences[i])
  {
    var parts := Render(titles, sentences, words, chunkNum);
    var point := KeyPoints(sentences)[i];
    assert parts[2 + i] == point;
    JoinContainsPart(parts, "\n\n", 2 + i);
    ContainsSuffix(NatToString(i + 1) + ". ", sentences[i]);
    ContainsTransitive(Join(parts, "\n\n"), point, sentences[i]);
  }

  /** Each of the first five key sentences appears in the fallback summary. */
  lemma FallbackKeepsKeySentences(text: string, chunkNum: nat, i: nat)
    requires i < 5 && i < |Picked(Split(text, "\n"), KeySentence)|
    ensures Contains(FallbackSummary(text, chunkNum), Picked(Split(text, "\n"), KeySentence)[i])
  {
    var lines := Split(text, "\n");
    RenderedKeepsSentence(Picked(lines, TitleLine), Picked(lines, KeySentence), WordCount(text), chunkNum, i);
  }

  /** A text of more than 100 words gets the word-count sentence. */
  lemma FallbackCountsLongText(text: string, chunkNum: nat)
    requires WordCount(text) > 100
    ensures Contains(FallbackSummary(text, chunkNum), WordCountLine(WordCount(text)))
  {
    var parts := FallbackParts(text, chunkNum);
    JoinContainsPart(parts, "\n\n", |parts| - 2);
  }

  /** Picking from one more line adds that line exactly when it is of the kind. */
  lemma PickedStep(lines: seq<string>, i: nat, kind: LineKind)
    requires i < |lines|
    ensures var line := Strip(lines[i]);
      Picked(lines[..i + 1], kind) == Picked(lines[..i], kind) + (if line != "" && Selects(kind, line) then [line] else [])
  {
    assert lines[..i + 1][..i] == lines[..i];
  }

  /** The loop of `_create_fallback_summary` over the lines of the text. */
  method PickLines(lines: seq<string>) returns (titles: seq<string>, sentences: seq<string>)
    ensures titles == Picked(lines, TitleLine) && sentences == Picked(lines, KeySentence)
  {
    titles, sentences := [], [];
    for i := 0 to |lines|
      invariant titles == Picked(lines[..i], TitleLine)
      invariant sentences == Picked(lines[..i], KeySentence)
    {
      PickedStep(lines, i, TitleLine);
      PickedStep(lines, i, KeySentence);
      var line := Strip(lines[i]);
      if line != "" {
        if IsTitleLine(line) {
          titles := titles + [line];
        }
        if IsKeySentence(line) {
          sentences := sentences + [line];
        }
      }
    }
    assert lines[..|lines|] == lines;
  }

  /** The loop that numbers the first five key sentences. */
  method NumberPoints(sentences: seq<string>) returns (points: seq<string>)
    ensures points == KeyPoints(sentences)
  {
    var n := Min(5, |sentences|);
    points := [];
    for i := 0 to n
      invariant points == KeyPoints(sentences)[..i]
    {
      points := points + [NatToString(i + 1) + ". " + sentences[i]];
    }
  }

  /** The appends of `_create_fallback_summary` that build its parts from what the line loop found. */
  method AssembleParts(titles: seq<string>, sentences: seq<string>, words: nat, chunkNum: nat) returns (parts: seq<string>)
    ensures parts == Render(titles, sentences, words, chunkNum)
  {
    parts := [FallbackHeading(titles, chunkNum)];
    if sentences != [] {
      var points := NumberPoints(sentences);
      parts := parts + ["### Key Points:"] + points;
    }
    if words > 100 {
      parts := parts + ["\n### " + "Content Overview:"];
      parts := parts + [WordCountLine(words)];
      parts := parts + [ClosingLine];
    }
  }

  /** `_create_fallback_summary`, with its loops over the lines and over the key sentences. */
  method CreateFallbackSummary(text: string, chunkNum: nat, totalChunks: nat) returns (summary: string)
    ensures summary == FallbackSummary(text, chunkNum)
  {
    var titles, sentences := PickLines(Split(text, "\n"));
    var parts := AssembleParts(titles, sentences, WordCount(text), chunkNum);
    summary := Join(parts, "\n\n");
  }
}
