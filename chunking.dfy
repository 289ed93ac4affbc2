/**
 * How `get_summary` cuts a long text into chunks: the line walk of
 * `_split_text_into_chunks`, the marker/size splitter `_split_at_chapters`,
 * and the merge step `_combine_chunks_to_limit`.
 */
module Chunking {
  import opened Wrappers
  import opened Text
  import Patterns

  /** The pieces glued back together with nothing in between. */
  function Concat(pieces: seq<string>): string
    decreases |pieces|
  {
    if pieces == [] then "" else pieces[0] + Concat(pieces[1..])
  }

  lemma {:induction false} ConcatAppend(a: seq<string>, b: seq<string>)
    ensures Concat(a + b) == Concat(a) + Concat(b)
    decreases |a|
  {
    if a == [] {
      assert a + b == b;
    } else {
      calc {
        Concat(a + b);
        (a + b)[0] + Concat((a + b)[1..]);
        { assert (a + b)[1..] == a[1..] + b; }
        a[0] + Concat(a[1..] + b);
        { ConcatAppend(a[1..], b); }
        a[0] + (Concat(a[1..]) + Concat(b));
      }
    }
  }

  // ---------------------------------------------------------------------
  // The line walk
  // ---------------------------------------------------------------------

  /**
   * The state of the line walk after some lines: the runs of lines already
   * flushed as chunks, and the run held in `current_chunk`.
   */
  datatype Walk = Walk(done: seq<seq<string>>, cur: seq<string>)

  /**
   * Walk the lines in order: a line starts a new run when the current run is
   * non-empty and its text followed by the line is longer than `m`.
   */
  function WalkLines(lines: seq<string>, m: nat): Walk
    decreases |lines|
  {
    if lines == [] then Walk([], [])
    else
      var w := WalkLines(lines[..|lines| - 1], m);
      var line := lines[|lines| - 1];
      if |Lines(w.cur) + line| > m && w.cur != [] then Walk(w.done + [w.cur], [line])
      else Walk(w.done, w.cur + [line])
  }

  /** The stripped text of each run. */
  function StripAll(groups: seq<seq<string>>): (r: seq<string>)
    ensures |r| == |groups|
    decreases |groups|
  {
    if groups == [] then [] else StripAll(groups[..|groups| - 1]) + [Strip(Lines(groups[|groups| - 1]))]
  }

  lemma {:induction false} StripAllAt(groups: seq<seq<string>>, k: nat)
    requires k < |groups|
    ensures StripAll(groups)[k] == Strip(Lines(groups[k]))
    decreases |groups|
  {
    if k < |groups| - 1 {
      StripAllAt(groups[..|groups| - 1], k);
    }
  }

  lemma StripAllSnoc(groups: seq<seq<string>>, g: seq<string>)
    ensures StripAll(groups + [g]) == StripAll(groups) + [Strip(Lines(g))]
  {
    assert (groups + [g])[..|groups|] == groups;
  }

  /** Every flushed run becomes a chunk; the last run only when it is not blank. */
  function ChunksOf(w: Walk): seq<string> {
    StripAll(w.done) + (if Strip(Lines(w.cur)) != "" then [Strip(Lines(w.cur))] else [])
  }

  /** The chunks of the line walk over `text.split('\n')`. */
  function LineChunks(text: string, m: nat): seq<string> {
    ChunksOf(WalkLines(Split(text, "\n"), m))
  }

  lemma LinesSnoc(group: seq<string>, line: string)
    ensures Lines(group + [line]) == Lines(group) + line + "\n"
  {
    assert (group + [line])[..|group|] == group;
  }

  lemma LinesEmpty(group: seq<string>)
    ensures Lines(group) == "" <==> group == []
  {
  }

  lemma LinesOne(line: string)
    ensures Lines([line]) == line + "\n"
  {
    LinesSnoc([], line);
    assert [] + [line] == [line];
  }

  lemma FlattenSnoc(groups: seq<seq<string>>, g: seq<string>)
    ensures Flatten(groups + [g]) == Flatten(groups) + g
  {
    assert (groups + [g])[..|groups|] == groups;
  }

  /** One more line: the walk either flushes the current run before it or extends the run with it. */
  lemma WalkStep(front: seq<string>, line: string, m: nat)
    ensures var w := WalkLines(front, m);
      WalkLines(front + [line], m)
        == if |Lines(w.cur) + line| > m && w.cur != [] then Walk(w.done + [w.cur], [line]) else Walk(w.done, w.cur + [line])
  {
    assert (front + [line])[..|front|] == front;
  }

  /** The walk over one more line of a list, in the terms the loop of `SplitByLines` uses. */
  lemma WalkPrefixStep(lines: seq<string>, i: nat, m: nat)
    requires i < |lines|
    ensures var w := WalkLines(lines[..i], m);
      WalkLines(lines[..i + 1], m)
        == if |Lines(w.cur) + lines[i]| > m && w.cur != [] then Walk(w.done + [w.cur], [lines[i]])
           else Walk(w.done, w.cur + [lines[i]])
  {
    assert lines[..i + 1] == lines[..i] + [lines[i]];
    WalkStep(lines[..i], lines[i], m);
  }

  /** The runs of the walk: the flushed ones and the current one. */
  function Runs(lines: seq<string>, m: nat): seq<seq<string>> {
    var w := WalkLines(lines, m);
    w.done + [w.cur]
  }

  /**
   * A run holds at least one line, and a run of two or more lines has a text
   * of at most `m + 1` characters (its last newline included).
   */
  predicate RunFits(g: seq<string>, m: nat) {
    g != [] && (|g| >= 2 ==> |Lines(g)| <= m + 1)
  }

  /** The walk puts every line into exactly one run, in order. */
  lemma {:induction false} WalkCovers(lines: seq<string>, m: nat)
    ensures Flatten(Runs(lines, m)) == lines
    ensures WalkLines(lines, m).cur == [] <==> lines == []
    decreases |lines|
  {
    if lines != [] {
      var front := lines[..|lines| - 1];
      var line := lines[|lines| - 1];
      assert lines == front + [line];
      WalkCovers(front, m);
      WalkStep(front, line, m);
      var w := WalkLines(front, m);
      FlattenSnoc(w.done, w.cur);
      if |Lines(w.cur) + line| > m && w.cur != [] {
        FlattenSnoc(w.done + [w.cur], [line]);
      } else {
        FlattenSnoc(w.done, w.cur + [line]);
      }
    }
  }

  /** Every run of a list fits. */
  predicate AllFit(groups: seq<seq<string>>, m: nat) {
    forall k :: 0 <= k < |groups| ==> RunFits(groups[k], m)
  }

  lemma AllFitSnoc(groups: seq<seq<string>>, g: seq<string>, m: nat)
    requires AllFit(groups, m) && RunFits(g, m)
    ensures AllFit(groups + [g], m)
  {
    var all := groups + [g];
    forall k | 0 <= k < |all| ensures RunFits(all[k], m) {
      if k < |groups| {
        assert all[k] == groups[k];
      }
    }
  }

  /** Every run of the walk fits. */
  lemma {:induction false} WalkRunsFit(lines: seq<string>, m: nat)
    ensures var w := WalkLines(lines, m);
      (lines != [] ==> RunFits(w.cur, m)) && AllFit(w.done, m)
    decreases |lines|
  {
    if lines != [] {
      var front := lines[..|lines| - 1];
      var line := lines[|lines| - 1];
      assert lines == front + [line];
      WalkRunsFit(front, m);
      WalkCovers(front, m);
      WalkStep(front, line, m);
      var w := WalkLines(front, m);
      if |Lines(w.cur) + line| > m && w.cur != [] {
        AllFitSnoc(w.done, w.cur, m);
      } else if w.cur != [] {
        LinesSnoc(w.cur, line);
      }
    }
  }

  /** A run whose stripped text is longer than `m` is a single line longer than `m`. */
  lemma OversizedRunIsOneLine(g: seq<string>, m: nat)
    requires RunFits(g, m) && |Strip(Lines(g))| > m
    ensures |g| == 1 && |g[0]| > m
  {
    var text := Lines(g);
    StripDropsTrailingSpace(text);
    if |g| == 1 {
      assert g == [g[0]];
      LinesOne(g[0]);
      StripAppendSpace(g[0], '\n');
    }
  }

  /** The empty text has no chunks. */
  lemma EmptyTextHasNoChunks(m: nat)
    ensures LineChunks("", m) == []
  {
    var lines := Split("", "\n");
    assert IndexFrom("", "\n", 0) == None;
    assert lines == [""];
    WalkStep([], "", m);
    assert [] + [""] == [""];
    LinesOne("");
    StripAppendSpace("", '\n');
  }

  /** The `k`-th chunk of a walk is the stripped text of its `k`-th run. */
  lemma ChunkOfRun(w: Walk, k: nat)
    requires k < |ChunksOf(w)|
    ensures ChunksOf(w)[k] == Strip(Lines((w.done + [w.cur])[k]))
  {
    var tail := if Strip(Lines(w.cur)) != "" then [Strip(Lines(w.cur))] else [];
    assert ChunksOf(w) == StripAll(w.done) + tail;
    if k < |w.done| {
      StripAllAt(w.done, k);
    }
  }

  /** The chunks of a walk are the stripped texts of its runs, less a blank last run. */
  lemma ChunksOfRuns(w: Walk)
    ensures var runs := w.done + [w.cur];
      var chunks := ChunksOf(w);
      && (|chunks| == |runs| || (|chunks| == |runs| - 1 && IsBlank(Lines(runs[|runs| - 1]))))
      && (forall k :: 0 <= k < |chunks| ==> chunks[k] == Strip(Lines(runs[k])))
  {
    var runs := w.done + [w.cur];
    var chunks := ChunksOf(w);
    assert runs[|runs| - 1] == w.cur;
    forall k | 0 <= k < |chunks| ensures chunks[k] == Strip(Lines(runs[k])) {
      ChunkOfRun(w, k);
    }
  }

  /**
   * The chunks are, in order, the stripped texts of the runs of consecutive
   * lines; only a blank last run is dropped; and every run fits.
   */
  lemma WalkChunksAreRuns(lines: seq<string>, m: nat)
    requires lines != []
    ensures var runs := Runs(lines, m);
      var chunks := ChunksOf(WalkLines(lines, m));
      && Flatten(runs) == lines
      && (|chunks| == |runs| || (|chunks| == |runs| - 1 && IsBlank(Lines(runs[|runs| - 1]))))
      && (forall k :: 0 <= k < |chunks| ==> chunks[k] == Strip(Lines(runs[k])))
      && (forall k :: 0 <= k < |runs| ==> RunFits(runs[k], m))
  {
    WalkCovers(lines, m);
    WalkRunsFit(lines, m);
    var w := WalkLines(lines, m);
    ChunksOfRuns(w);
    AllFitSnoc(w.done, w.cur, m);
  }

  lemma LineChunksAreRuns(text: string, m: nat)
    ensures var runs := Runs(Split(text, "\n"), m);
      var chunks := LineChunks(text, m);
      && Flatten(runs) == Split(text, "\n")
      && (|chunks| == |runs| || (|chunks| == |runs| - 1 && IsBlank(Lines(runs[|runs| - 1]))))
      && (forall k :: 0 <= k < |chunks| ==> chunks[k] == Strip(Lines(runs[k])))
      && (forall k :: 0 <= k < |runs| ==> RunFits(runs[k], m))
  {
    WalkChunksAreRuns(Split(text, "\n"), m);
  }

  /** A chunk longer than `m` comes from a run made of one line longer than `m`. */
  lemma OversizedChunkIsOneLine(text: string, m: nat, k: nat)
    requires k < |LineChunks(text, m)| && |LineChunks(text, m)[k]| > m
    ensures var runs := Runs(Split(text, "\n"), m);
      |runs[k]| == 1 && |runs[k][0]| > m
  {
    LineChunksAreRuns(text, m);
    var runs := Runs(Split(text, "\n"), m);
    OversizedRunIsOneLine(runs[k], m);
  }

  /** The loop of `_split_text_into_chunks` that accumulates `current_chunk` over the lines. */
  method SplitByLines(text: string, maxChars: nat) returns (chunks: seq<string>)
    ensures chunks == LineChunks(text, maxChars)
  {
    var lines := Split(text, "\n");
    chunks := [];
    var current := "";
    var i := 0;
    while i < |lines|
      invariant 0 <= i <= |lines|
      invariant chunks == StripAll(WalkLines(lines[..i], maxChars).done)
      invariant current == Lines(WalkLines(lines[..i], maxChars).cur)
    {
      var line := lines[i];
      ghost var w := WalkLines(lines[..i], maxChars);
      WalkPrefixStep(lines, i, maxChars);
      LinesEmpty(w.cur);
      if |current + line| > maxChars && current != "" {
        StripAllSnoc(w.done, w.cur);
        LinesOne(line);
        chunks := chunks + [Strip(current)];
        current := line + "\n";
      } else {
        LinesSnoc(w.cur, line);
        current := current + line + "\n";
      }
      i := i + 1;
    }
    assert lines[..i] == lines;
    if Strip(current) != "" {
      chunks := chunks + [Strip(current)];
    }
  }

  // ---------------------------------------------------------------------
  // The marker/size splitter
  // ---------------------------------------------------------------------

  predicate Sorted(ps: seq<nat>) {
    forall i, j :: 0 <= i < j < |ps| ==> ps[i] <= ps[j]
  }

  /** A bound on every element of `ps` and on `p` bounds every element of a rearrangement of them. */
  lemma BoundOfRearranged(b: nat, p: nat, ps: seq<nat>, r: seq<nat>)
    requires multiset(r) == multiset(ps) + multiset{p}
    requires b <= p && forall k :: 0 <= k < |ps| ==> b <= ps[k]
    ensures forall k :: 0 <= k < |r| ==> b <= r[k]
  {
    forall k | 0 <= k < |r| ensures b <= r[k] {
      assert r[k] in multiset(r);
      if r[k] != p {
        assert r[k] in multiset(ps);
      }
    }
  }

  lemma SortedCons(x: nat, rest: seq<nat>)
    requires Sorted(rest) && forall k :: 0 <= k < |rest| ==> x <= rest[k]
    ensures Sorted([x] + rest)
  {
    var all := [x] + rest;
    forall i, j | 0 <= i < j < |all| ensures all[i] <= all[j] {
      assert all[j] == rest[j - 1];
      if i > 0 {
        assert all[i] == rest[i - 1];
      }
    }
  }

  function Insert(p: nat, ps: seq<nat>): (r: seq<nat>)
    requires Sorted(ps)
    ensures Sorted(r) && multiset(r) == multiset(ps) + multiset{p}
    decreases |ps|
  {
    if ps == [] then [p]
    else if p <= ps[0] then [p] + ps
    else
      var rest := Insert(p, ps[1..]);
      assert ps == [ps[0]] + ps[1..];
      BoundOfRearranged(ps[0], p, ps[1..], rest);
      SortedCons(ps[0], rest);
      [ps[0]] + rest
  }

  /** `chapter_positions.sort()` */
  function Sort(ps: seq<nat>): (r: seq<nat>)
    ensures Sorted(r) && multiset(r) == multiset(ps)
    decreases |ps|
  {
    if ps == [] then []
    else
      assert ps == [ps[0]] + ps[1..];
      Insert(ps[0], Sort(ps[1..]))
  }

  /** `[text[i:i+m] for i in range(0, len(text), m)]` */
  function FixedSlices(text: string, m: nat): (r: seq<string>)
    requires m > 0
    ensures forall k :: 0 <= k < |r| ==> 0 < |r[k]| <= m
    decreases |text|
  {
    if text == [] then []
    else if |text| <= m then [text]
    else [text[..m]] + FixedSlices(text[m..], m)
  }

  /** Fixed slices glue back to the text. */
  lemma {:induction false} FixedSlicesConcat(text: string, m: nat)
    requires m > 0
    ensures Concat(FixedSlices(text, m)) == text
    decreases |text|
  {
    if |text| > m {
      FixedSlicesConcat(text[m..], m);
      assert text == text[..m] + text[m..];
    }
  }

  /** The positions from index `i` on are no earlier than the cursor and inside the text. */
  predicate Ahead(ps: seq<nat>, i: nat, start: nat, n: nat) {
    forall k :: i <= k < |ps| ==> start <= ps[k] < n
  }

  /** Where the cursor stands after the position `p`. */
  function NextStart(m: nat, p: nat, start: nat): nat {
    if p - start > m then start + m else if p - start > 0 then p else start
  }

  /**
   * What the position `p` cuts off at the cursor: one `m`-slice when it lies
   * more than `m` ahead, the text up to it when it lies ahead, nothing when
   * it is at the cursor.
   */
  function PieceAt(text: string, m: nat, p: nat, start: nat): (r: seq<string>)
    requires start <= p < |text|
    ensures NextStart(m, p, start) <= p
    ensures Concat(r) == text[start..NextStart(m, p, start)]
  {
    if p - start > m then [text[start..start + m]]
    else if p - start > 0 then [text[start..p]]
    else []
  }

  /**
   * The cursor walk over the sorted positions from index `i`, with the cursor
   * at `start`: each position cuts its piece, and what is left after the last
   * position is the final piece.
   */
  function Cut(text: string, m: nat, ps: seq<nat>, i: nat, start: nat): seq<string>
    requires i <= |ps| && start <= |text| && Sorted(ps) && Ahead(ps, i, start, |text|)
    decreases |ps| - i
  {
    if i == |ps| then (if start < |text| then [text[start..]] else [])
    else PieceAt(text, m, ps[i], start) + Cut(text, m, ps, i + 1, NextStart(m, ps[i], start))
  }

  /** The pieces of the cursor walk are contiguous from the cursor and glue back to the rest of the text. */
  lemma {:induction false} CutConcat(text: string, m: nat, ps: seq<nat>, i: nat, start: nat)
    requires i <= |ps| && start <= |text| && Sorted(ps) && Ahead(ps, i, start, |text|)
    ensures Concat(Cut(text, m, ps, i, start)) == text[start..]
    decreases |ps| - i
  {
    if i < |ps| {
      var next := NextStart(m, ps[i], start);
      var piece := PieceAt(text, m, ps[i], start);
      CutConcat(text, m, ps, i + 1, next);
      ConcatAppend(piece, Cut(text, m, ps, i + 1, next));
      assert text[start..] == text[start..next] + text[next..];
    } else if start < |text| {
      assert Concat([text[start..]]) == text[start..] + Concat([]);
    }
  }

  lemma SortedAhead(hits: seq<nat>, n: nat)
    requires Ahead(hits, 0, 0, n)
    ensures Ahead(Sort(hits), 0, 0, n)
  {
    var ps := Sort(hits);
    forall k | 0 <= k < |ps| ensures ps[k] < n {
      assert ps[k] in multiset(hits);
    }
  }

  /** `_split_at_chapters(text, m)` with the regular-expression hits given as positions. */
  function ChapterPieces(text: string, m: nat, hits: seq<nat>): seq<string>
    requires m > 0 && Ahead(hits, 0, 0, |text|)
  {
    if hits == [] then FixedSlices(text, m)
    else
      SortedAhead(hits, |text|);
      KeepNonBlank(Cut(text, m, Sort(hits), 0, 0))
  }

  /**
   * Without markers the text is cut into slices of at most `m` characters
   * that glue back to it; with markers the pieces of the cursor walk glue
   * back to the text, and only their non-blank stripped forms are returned.
   */
  lemma ChapterPiecesSpec(text: string, m: nat, hits: seq<nat>)
    requires m > 0 && Ahead(hits, 0, 0, |text|)
    ensures hits == [] ==> ChapterPieces(text, m, hits) == FixedSlices(text, m) && Concat(FixedSlices(text, m)) == text
    ensures hits != [] ==>
              && Ahead(Sort(hits), 0, 0, |text|)
              && Concat(Cut(text, m, Sort(hits), 0, 0)) == text
              && ChapterPieces(text, m, hits) == KeepNonBlank(Cut(text, m, Sort(hits), 0, 0))
  {
    if hits == [] {
      FixedSlicesConcat(text, m);
    } else {
      SortedAhead(hits, |text|);
      CutConcat(text, m, Sort(hits), 0, 0);
    }
  }

  /** The hits of the chapter patterns all lie inside the text. */
  lemma ChapterHitsAhead(text: string)
    ensures Ahead(Patterns.ChapterHits(text), 0, 0, |text|)
  {
  }

  /** One position of the cursor walk: its piece, then the walk on from the new cursor. */
  lemma CutStep(text: string, m: nat, ps: seq<nat>, i: nat, start: nat)
    requires i < |ps| && start <= |text| && Sorted(ps) && Ahead(ps, i, start, |text|)
    ensures NextStart(m, ps[i], start) <= |text| && Ahead(ps, i + 1, NextStart(m, ps[i], start), |text|)
    ensures Cut(text, m, ps, i, start)
      == PieceAt(text, m, ps[i], start) + Cut(text, m, ps, i + 1, NextStart(m, ps[i], start))
  {
  }

  /** The body of the cursor loop of `_split_at_chapters` for the position `pos`. */
  method CutPiece(text: string, maxChars: nat, pos: nat, start: nat) returns (piece: seq<string>, next: nat)
    requires start <= pos < |text|
    ensures piece == PieceAt(text, maxChars, pos, start) && next == NextStart(maxChars, pos, start)
  {
    piece, next := [], start;
    if pos - start > maxChars {
      piece := [text[start..start + maxChars]];
      next := start + maxChars;
    } else if pos - start > 0 {
      piece := [text[start..pos]];
      next := pos;
    }
  }

  /** The cursor loop of `_split_at_chapters` over the sorted positions. */
  method CutAtPositions(text: string, maxChars: nat, positions: seq<nat>) returns (chunks: seq<string>)
    requires Sorted(positions) && Ahead(positions, 0, 0, |text|)
    ensures chunks == Cut(text, maxChars, positions, 0, 0)
  {
    chunks := [];
    var start: nat := 0;
    for i := 0 to |positions|
      invariant start <= |text| && Ahead(positions, i, start, |text|)
      invariant chunks + Cut(text, maxChars, positions, i, start) == Cut(text, maxChars, positions, 0, 0)
    {
      CutStep(text, maxChars, positions, i, start);
      ghost var rest := Cut(text, maxChars, positions, i, start);
      var piece;
      piece, start := CutPiece(text, maxChars, positions[i], start);
      assert rest == piece + Cut(text, maxChars, positions, i + 1, start);
      chunks := chunks + piece;
    }
    if start < |text| {
      chunks := chunks + [text[start..]];
    }
  }

  /** `_split_at_chapters`: fixed slices without markers, else the non-blank pieces of the cursor loop. */
  method SplitAtChapters(text: string, maxChars: nat) returns (pieces: seq<string>)
    requires maxChars > 0
    ensures pieces == ChapterPieces(text, maxChars, Patterns.ChapterHits(text))
  {
    var hits := Patterns.ChapterHits(text);
    ChapterHitsAhead(text);
    if hits == [] {
      return FixedSlices(text, maxChars);
    }
    var positions := Sort(hits);
    SortedAhead(hits, |text|);
    var chunks := CutAtPositions(text, maxChars, positions);
    pieces := KeepNonBlank(chunks);
  }

  /**
   * `_split_text_into_chunks`: the line chunks, replaced by the chapter
   * pieces only when the walk gave a single chunk for a text longer than the
   * limit and the chapter split gives more than one piece.
   */
  function TextChunks(text: string, m: nat): seq<string>
    requires m > 0
  {
    var chunks := LineChunks(text, m);
    ChapterHitsAhead(text);
    var pieces := ChapterPieces(text, m, Patterns.ChapterHits(text));
    if |chunks| == 1 && |text| > m && |pieces| > 1 then pieces else chunks
  }

  /** Chapter splitting changes the result only for a single over-long chunk, and only into several pieces. */
  lemma ChapterSplitOnlyForOneChunk(text: string, m: nat)
    requires m > 0
    ensures Ahead(Patterns.ChapterHits(text), 0, 0, |text|)
    ensures TextChunks(text, m) != LineChunks(text, m) ==>
      |LineChunks(text, m)| == 1 && |text| > m && |TextChunks(text, m)| > 1
      && TextChunks(text, m) == ChapterPieces(text, m, Patterns.ChapterHits(text))
    ensures text == "" ==> TextChunks(text, m) == []
  {
    ChapterHitsAhead(text);
    if text == "" {
      EmptyTextHasNoChunks(m);
    }
  }

  method SplitTextIntoChunks(text: string, maxChars: nat) returns (chunks: seq<string>)
    requires maxChars > 0
    ensures chunks == TextChunks(text, maxChars)
  {
    chunks := SplitByLines(text, maxChars);
    if |chunks| == 1 && |text| > maxChars {
      var chapterSplits := SplitAtChapters(text, maxChars);
      if |chapterSplits| > 1 {
        return chapterSplits;
      }
    }
  }

  // ---------------------------------------------------------------------
  // Merging chunks down to a limit
  // ---------------------------------------------------------------------

  /** Consecutive groups of `f` chunks (the last one possibly shorter), each joined with a blank line. */
  function Grouped(chunks: seq<string>, f: nat): (r: seq<string>)
    requires f > 0
    decreases |chunks|
  {
    if chunks == [] then []
    else [Join(chunks[..Min(f, |chunks|)], "\n\n")] + Grouped(chunks[Min(f, |chunks|)..], f)
  }

  /** `len(chunks) // max_chunks + 1` */
  function CombineFactor(n: nat, maxChunks: nat): nat
    requires maxChunks > 0
  {
    n / maxChunks + 1
  }

  /** `_combine_chunks_to_limit(chunks, max_chunks)` */
  function Combined(chunks: seq<string>, maxChunks: nat): seq<string>
    requires maxChunks > 0
  {
    if |chunks| <= maxChunks then chunks else Grouped(chunks, CombineFactor(|chunks|, maxChunks))
  }

  lemma {:induction false} GroupedCount(chunks: seq<string>, f: nat, k: nat)
    requires f > 0 && |chunks| <= k * f
    ensures |Grouped(chunks, f)| <= k
    decreases |chunks|
  {
    if chunks != [] {
      assert k >= 1;
      var g := Min(f, |chunks|);
      assert |chunks[g..]| <= (k - 1) * f;
      GroupedCount(chunks[g..], f, k - 1);
    }
  }

  /** Grouping keeps every chunk and its order: the blank-line join of the groups is the blank-line join of the chunks. */
  lemma {:induction false} GroupedJoin(chunks: seq<string>, f: nat)
    requires f > 0
    ensures Join(Grouped(chunks, f), "\n\n") == Join(chunks, "\n\n")
    decreases |chunks|
  {
    if chunks != [] {
      var g := Min(f, |chunks|);
      var rest := chunks[g..];
      if rest != [] {
        GroupedJoin(rest, f);
        assert chunks == chunks[..g] + rest;
        JoinAppend(chunks[..g], rest, "\n\n");
        var gs := Grouped(chunks, f);
        assert gs[1..] == Grouped(rest, f);
      } else {
        assert chunks[..g] == chunks;
      }
    }
  }

  lemma FactorBound(n: nat, maxChunks: nat)
    requires maxChunks > 0
    ensures n <= maxChunks * CombineFactor(n, maxChunks)
  {
    assert n == maxChunks * (n / maxChunks) + n % maxChunks;
    assert maxChunks * CombineFactor(n, maxChunks) == maxChunks * (n / maxChunks) + maxChunks;
  }

  /**
   * The merge leaves a short list untouched, never yields more than
   * `max_chunks` chunks, keeps the blank-line join of the chunks, and a second
   * merge changes nothing.
   */
  lemma CombinedSpec(chunks: seq<string>, maxChunks: nat)
    requires maxChunks > 0
    ensures |chunks| <= maxChunks ==> Combined(chunks, maxChunks) == chunks
    ensures |Combined(chunks, maxChunks)| <= maxChunks
    ensures Join(Combined(chunks, maxChunks), "\n\n") == Join(chunks, "\n\n")
    ensures Combined(Combined(chunks, maxChunks), maxChunks) == Combined(chunks, maxChunks)
  {
    if |chunks| > maxChunks {
      var f := CombineFactor(|chunks|, maxChunks);
      FactorBound(|chunks|, maxChunks);
      assert |chunks| <= maxChunks * f;
      GroupedCount(chunks, f, maxChunks);
      GroupedJoin(chunks, f);
    }
  }

  /** One group taken off the front of the remaining chunks. */
  lemma GroupedStep(chunks: seq<string>, f: nat, i: nat)
    requires f > 0 && i < |chunks|
    ensures Grouped(chunks[i..], f)
      == [Join(chunks[i..Min(i + f, |chunks|)], "\n\n")] + Grouped(chunks[Min(i + f, |chunks|)..], f)
  {
    var j := Min(i + f, |chunks|);
    assert chunks[i..][..Min(f, |chunks| - i)] == chunks[i..j];
    assert chunks[i..][Min(f, |chunks| - i)..] == chunks[j..];
  }

  /** `_combine_chunks_to_limit`, with its stepping loop. */
  method CombineChunksToLimit(chunks: seq<string>, maxChunks: nat) returns (combined: seq<string>)
    requires maxChunks > 0
    ensures combined == Combined(chunks, maxChunks)
  {
    if |chunks| <= maxChunks {
      return chunks;
    }
    var factor := |chunks| / maxChunks + 1;
    combined := [];
    var i := 0;
    while i < |chunks|
      invariant 0 <= i <= |chunks|
      invariant combined + Grouped(chunks[i..], factor) == Grouped(chunks, factor)
    {
      var j := Min(i + factor, |chunks|);
      GroupedStep(chunks, factor, i);
      combined := combined + [Join(chunks[i..j], "\n\n")];
      i := j;
    }
    assert chunks[i..] == [];
  }
}
