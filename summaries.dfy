/**
 * The summary pipeline of `HybridAI`: the offline fallback summary, the
 * per-chunk request with its error texts, the merge of the chunk summaries,
 * and `get_summary` with the progress values it reports.
 */
module Summaries {
  import opened Wrappers
  import opened Text
  import opened Patterns
  import opened LoadBalancer
  import opened Requests
  import opened Chunking
  import opened Fallback
  import opened RateLimits

  /** `get_summary` sends at most this many chunks. */
  const MaxChunks: nat := 10

  // ---------------------------------------------------------------------
  // One chunk
  // ---------------------------------------------------------------------

  /** What `_process_chunk_summary` returns for the outcome of its request. */
  function ChunkSummaryText(r: Result<string, RequestError>, chunkNum: nat): string {
    match r
    case Success(reply) => reply
    case Failure(e) =>
      var message := ErrorMessage(e);
      if RateLimited(message) then
        "Rate limit reached " + "while processing chunk " + NatToString(chunkNum) + ". Please wait " + "a moment and try again."
      else FailedChunkPrefix + " " + NatToString(chunkNum) + ": " + message
  }

  /** `_process_chunk_summary(text, chunk_num, total_chunks)` from the usage table `t`. */
  function ProcessChunk(svc: Service, t: UsageTable, text: string, chunkNum: nat, totalChunks: nat): (res: (string, UsageTable))
    requires HasBothKeys(t)
    ensures HasBothKeys(res.1)
  {
    var (r, t') := Ask(svc, t, ChunkPrompt(text, chunkNum, totalChunks));
    (ChunkSummaryText(r, chunkNum), t')
  }

  /**
   * A chunk counts as failed exactly when its request failed or the reply
   * itself begins like an error report: the rate-limit text is never chosen.
   */
  lemma ChunkFailedIff(r: Result<string, RequestError>, chunkNum: nat)
    ensures ChunkFailed(ChunkSummaryText(r, chunkNum)) <==> r.Failure? || ChunkFailed(r.value)
  {
    if r.Failure? {
      RequestErrorsAreNotRateLimits(r.error);
      var rest := " " + NatToString(chunkNum) + ": " + ErrorMessage(r.error);
      assert ChunkSummaryText(r, chunkNum) == FailedChunkPrefix + rest;
      StartsWithAppend(FailedChunkPrefix, rest);
    }
  }

  // ---------------------------------------------------------------------
  // All chunks, and the merge
  // ---------------------------------------------------------------------

  /**
   * The summary `get_summary` keeps for a chunk: a failed one is replaced by
   * the chunk's fallback summary, so the kept one never reads as failed.
   */
  function KeptSummary(s: string, chunk: string, chunkNum: nat): (r: string)
    ensures !ChunkFailed(r)
    ensures !ChunkFailed(s) ==> r == s
  {
    if ChunkFailed(s) then
      FallbackSummaryHeading(chunk, chunkNum);
      FallbackSummary(chunk, chunkNum)
    else s
  }

  /** The `summaries` list of `get_summary` for the replies to the first chunks. */
  function KeptSummaries(replies: seq<string>, chunks: seq<string>): (r: seq<string>)
    requires |replies| <= |chunks|
    ensures |r| == |replies|
    ensures forall i :: 0 <= i < |r| ==> !ChunkFailed(r[i])
    ensures forall i :: 0 <= i < |r| ==> !ChunkFailed(replies[i]) ==> r[i] == replies[i]
    ensures forall i :: 0 <= i < |r| ==> ChunkFailed(replies[i]) ==> r[i] == FallbackSummary(chunks[i], i + 1)
  {
    seq(|replies|, i requires 0 <= i < |replies| => KeptSummary(replies[i], chunks[i], i + 1))
  }

  /** `api_failures`: the replies that report a failed chunk. */
  function Failures(replies: seq<string>): (n: nat)
    ensures n <= |replies|
    decreases |replies|
  {
    if replies == [] then 0
    else Failures(replies[..|replies| - 1]) + (if ChunkFailed(replies[|replies| - 1]) then 1 else 0)
  }

  /** Every reply reports a failed chunk. */
  predicate AllFailed(replies: seq<string>) {
    forall i :: 0 <= i < |replies| ==> ChunkFailed(replies[i])
  }

  /** Every reply failed exactly when all of them count as failures. */
  lemma {:induction false} FailuresAll(replies: seq<string>)
    ensures Failures(replies) == |replies| <==> AllFailed(replies)
    decreases |replies|
  {
    if replies != [] {
      var front := replies[..|replies| - 1];
      FailuresAll(front);
      if forall i :: 0 <= i < |replies| ==> ChunkFailed(replies[i]) {
        assert forall i :: 0 <= i < |front| ==> ChunkFailed(front[i]) by {
          forall i | 0 <= i < |front| ensures ChunkFailed(front[i]) {
            assert front[i] == replies[i];
          }
        }
      } else if Failures(replies) == |replies| {
        forall i | 0 <= i < |replies| ensures ChunkFailed(replies[i]) {
          if i < |front| {
            assert front[i] == replies[i];
          }
        }
      }
    }
  }

  /** The replies of `_process_chunk_summary` to the first `k` chunks, and the key table after them. */
  datatype Round = Round(replies: seq<string>, usage: UsageTable)

  /** The chunk loop of `get_summary` over the first `k` chunks, each summarised in turn. */
  function ChunkRounds(svc: Service, t: UsageTable, chunks: seq<string>, k: nat): (r: Round)
    requires HasBothKeys(t) && k <= |chunks|
    ensures HasBothKeys(r.usage) && |r.replies| == k
    decreases k
  {
    if k == 0 then Round([], t)
    else
      var prev := ChunkRounds(svc, t, chunks, k - 1);
      var res := ProcessChunk(svc, prev.usage, chunks[k - 1], k, |chunks|);
      Round(prev.replies + [res.0], res.1)
  }

  /** One more round of the chunk loop appends the reply to the next chunk. */
  lemma RoundStep(svc: Service, t: UsageTable, chunks: seq<string>, k: nat)
    requires HasBothKeys(t) && 0 < k <= |chunks|
    ensures var prev := ChunkRounds(svc, t, chunks, k - 1);
      var reply := Ask(svc, prev.usage, ChunkPrompt(chunks[k - 1], k, |chunks|)).0;
      ChunkRounds(svc, t, chunks, k).replies == prev.replies + [ChunkSummaryText(reply, k)]
  {
  }

  /** Every request of the service fails, from any key table. */
  ghost predicate Unavailable(svc: Service) {
    forall t: UsageTable, p: Prompt :: FailsFrom(svc, t, p)
  }

  /** The request for `p` fails from the key table `t`. */
  ghost predicate FailsFrom(svc: Service, t: UsageTable, p: Prompt) {
    HasBothKeys(t) ==> Ask(svc, t, p).0.Failure?
  }

  /** Without a key the service is unavailable. */
  lemma NoKeysUnavailable(svc: Service)
    requires svc.key1 == "" && svc.key2 == ""
    ensures Unavailable(svc)
  {
  }

  /** With a transport that always raises the service is unavailable. */
  lemma AlwaysRaisingUnavailable(svc: Service)
    requires forall c :: svc.transport(c).Raised?
    ensures Unavailable(svc)
  {
    forall t: UsageTable, p: Prompt ensures FailsFrom(svc, t, p) {
      if HasBothKeys(t) && (svc.key1 != "" || svc.key2 != "") {
        AlwaysRaisingExhausts(svc.key1, svc.key2, t, p, svc.fallbackModels, svc.transport, 0);
      }
    }
  }

  lemma UnavailableAsk(svc: Service, t: UsageTable, p: Prompt)
    requires Unavailable(svc) && HasBothKeys(t)
    ensures Ask(svc, t, p).0.Failure?
  {
    assert FailsFrom(svc, t, p);
  }

  /** When the service is unavailable every chunk's reply reports a failure. */
  lemma {:induction false} UnavailableRounds(svc: Service, t: UsageTable, chunks: seq<string>, k: nat)
    requires HasBothKeys(t) && k <= |chunks| && Unavailable(svc)
    ensures AllFailed(ChunkRounds(svc, t, chunks, k).replies)
    decreases k
  {
    if k > 0 {
      UnavailableRounds(svc, t, chunks, k - 1);
      LastReplyFailed(svc, t, chunks, k);
      AllFailedSnoc(ChunkRounds(svc, t, chunks, k - 1).replies, ChunkRounds(svc, t, chunks, k).replies);
    }
  }

  /** When the service is unavailable the reply to chunk `k` reports a failure. */
  lemma LastReplyFailed(svc: Service, t: UsageTable, chunks: seq<string>, k: nat)
    requires HasBothKeys(t) && 0 < k <= |chunks| && Unavailable(svc)
    ensures var replies := ChunkRounds(svc, t, chunks, k).replies;
      replies[..k - 1] == ChunkRounds(svc, t, chunks, k - 1).replies && ChunkFailed(replies[k - 1])
  {
    RoundStep(svc, t, chunks, k);
    var prev := ChunkRounds(svc, t, chunks, k - 1);
    var reply := Ask(svc, prev.usage, ChunkPrompt(chunks[k - 1], k, |chunks|)).0;
    UnavailableAsk(svc, prev.usage, ChunkPrompt(chunks[k - 1], k, |chunks|));
    ChunkFailedIff(reply, k);
    assert (prev.replies + [ChunkSummaryText(reply, k)])[..k - 1] == prev.replies;
  }

  lemma AllFailedSnoc(front: seq<string>, replies: seq<string>)
    requires |replies| == |front| + 1 && replies[..|front|] == front
    requires AllFailed(front) && ChunkFailed(replies[|front|])
    ensures AllFailed(replies)
  {
    forall i | 0 <= i < |replies|
      ensures ChunkFailed(replies[i])
    {
      if i < |front| {
        assert replies[i] == front[i];
      }
    }
  }

  /** When the service is unavailable every chunk is summarised offline and counted as a failure. */
  lemma UnavailableKept(svc: Service, t: UsageTable, chunks: seq<string>)
    requires HasBothKeys(t) && Unavailable(svc)
    ensures var r := ChunkRounds(svc, t, chunks, |chunks|);
      && Failures(r.replies) == |chunks|
      && forall i :: 0 <= i < |chunks| ==> KeptSummaries(r.replies, chunks)[i] == FallbackSummary(chunks[i], i + 1)
  {
    var r := ChunkRounds(svc, t, chunks, |chunks|);
    UnavailableRounds(svc, t, chunks, |chunks|);
    FailuresAll(r.replies);
  }

  /** `_combine_summaries(summaries)`: the merged reply, or the summaries under a plain heading. */
  function CombineSummaries(svc: Service, t: UsageTable, summaries: seq<string>): (res: (string, UsageTable))
    requires HasBothKeys(t)
    ensures HasBothKeys(res.1)
  {
    var combined := Join(summaries, "\n\n");
    var (r, t') := Ask(svc, t, CombinePrompt(combined));
    (if r.Success? then r.value else "## Combined Summary\n\n" + combined, t')
  }

  /** When the merge request fails, every chunk summary is kept in the result. */
  lemma CombineFallbackKeepsAll(svc: Service, t: UsageTable, summaries: seq<string>, i: nat)
    requires HasBothKeys(t) && i < |summaries|
    requires Ask(svc, t, CombinePrompt(Join(summaries, "\n\n"))).0.Failure?
    ensures Contains(CombineSummaries(svc, t, summaries).0, summaries[i])
  {
    var combined := Join(summaries, "\n\n");
    JoinContainsPart(summaries, "\n\n", i);
    ContainsSuffix("## Combined Summary\n\n", combined);
    ContainsTransitive("## Combined Summary\n\n" + combined, combined, summaries[i]);
  }

  // ---------------------------------------------------------------------
  // get_summary
  // ---------------------------------------------------------------------

  /** The chunks `get_summary` sends: the chunks of the text, merged down to ten when there are more. */
  function SummaryChunks(text: string, maxChars: nat): (chunks: seq<string>)
    requires maxChars > 0
    ensures |chunks| <= MaxChunks
    ensures Join(chunks, "\n\n") == Join(TextChunks(text, maxChars), "\n\n")
  {
    var chunks := TextChunks(text, maxChars);
    CombinedSpec(chunks, MaxChunks);
    if |chunks| > MaxChunks then Combined(chunks, MaxChunks) else chunks
  }

  /** The progress values reported while the `n` chunks are processed: `(i + 1) / n * 0.8`. */
  function ChunkProgress(n: nat): (p: seq<real>)
    ensures |p| == n
  {
    seq(n, i requires 0 <= i < n => (i + 1) as real / n as real * 0.8)
  }

  /** More than half of the chunks failed: `api_failures > len(chunks) * 0.5`, in integers. */
  predicate MostlyFailed(failures: nat, n: nat) {
    2 * failures > n
  }

  /** The integer test is the floating-point comparison of `get_summary`, read over the reals. */
  lemma MostlyFailedAsReal(failures: nat, n: nat)
    ensures MostlyFailed(failures, n) <==> failures as real > n as real * 0.5
  {
  }

  /** The result of `get_summary`, the values it passed to the progress callback, and the key table. */
  datatype SummaryRun = SummaryRun(summary: string, progress: seq<real>, usage: UsageTable)

  /** The long-text branch of `get_summary`, for the chunks it sends. */
  function LongSummary(svc: Service, t: UsageTable, text: string, chunks: seq<string>): (r: SummaryRun)
    requires HasBothKeys(t)
    ensures HasBothKeys(r.usage)
  {
    var n := |chunks|;
    var rounds := ChunkRounds(svc, t, chunks, n);
    if MostlyFailed(Failures(rounds.replies), n) then
      SummaryRun(FallbackSummary(text, 1), ChunkProgress(n) + [0.9], rounds.usage)
    else
      var (summary, t') := CombineSummaries(svc, rounds.usage, KeptSummaries(rounds.replies, chunks));
      SummaryRun(summary, ChunkProgress(n) + [0.9, 1.0], t')
  }

  /** The short-text branch of `get_summary`: one request, and the offline summary if it failed. */
  function ShortSummary(svc: Service, t: UsageTable, text: string): (r: SummaryRun)
    requires HasBothKeys(t)
    ensures HasBothKeys(r.usage) && !ChunkFailed(r.summary)
  {
    var (s, t') := ProcessChunk(svc, t, text, 1, 1);
    SummaryRun(KeptSummary(s, text, 1), [0.5, 1.0], t')
  }

  /** `get_summary(text, progress_callback)` with `MAX_SUMMARY_CHARS = maxChars`. */
  function SummaryOf(svc: Service, t: UsageTable, text: string, maxChars: nat): (r: SummaryRun)
    requires HasBothKeys(t) && maxChars > 0
    ensures HasBothKeys(r.usage)
  {
    if |text| > maxChars then LongSummary(svc, t, text, SummaryChunks(text, maxChars))
    else ShortSummary(svc, t, text)
  }

  lemma ProgressStep(i: nat, j: nat, n: nat)
    requires i < j < n
    ensures (i + 1) as real / n as real * 0.8 < (j + 1) as real / n as real * 0.8
  {
    var a, b, d := (i + 1) as real, (j + 1) as real, n as real;
    assert a < b && d > 0.0;
    assert a / d < b / d;
  }

  lemma ProgressBound(i: nat, n: nat)
    requires i < n
    ensures 0.0 < (i + 1) as real / n as real * 0.8 <= 0.8
  {
    var a, d := (i + 1) as real, n as real;
    assert 0.0 < a <= d;
    assert a / d <= 1.0;
  }

  /** Progress values that rise strictly and stay within (0, 1]. */
  predicate Rising(p: seq<real>) {
    && (forall i :: 0 <= i < |p| ==> 0.0 < p[i] <= 1.0)
    && (forall i, j :: 0 <= i < j < |p| ==> p[i] < p[j])
  }

  /** The chunk progress values, followed by 0.9 and possibly 1.0, rise strictly within (0, 1]. */
  lemma ChunkProgressRises(n: nat, tail: seq<real>)
    requires tail == [0.9] || tail == [0.9, 1.0]
    ensures Rising(ChunkProgress(n) + tail)
  {
    var c := ChunkProgress(n);
    var p := c + tail;
    forall i | 0 <= i < |p| ensures 0.0 < p[i] <= 1.0 {
      if i < n {
        ProgressBound(i, n);
      }
    }
    forall i, j | 0 <= i < j < |p| ensures p[i] < p[j] {
      if j < n {
        ProgressStep(i, j, n);
      } else if i < n {
        ProgressBound(i, n);
      }
    }
  }

  lemma LongProgress(svc: Service, t: UsageTable, text: string, chunks: seq<string>)
    requires HasBothKeys(t)
    ensures var r := LongSummary(svc, t, text, chunks);
      && r.progress != []
      && Rising(r.progress)
      && (r.progress[|r.progress| - 1] == 1.0 || r.summary == FallbackSummary(text, 1))
  {
    ChunkProgressRises(|chunks|, [0.9]);
    ChunkProgressRises(|chunks|, [0.9, 1.0]);
  }

  /**
   * The progress reported rises strictly, stays within (0, 1], and ends at
   * 1.0 unless the whole document fell back to the offline summary.
   */
  lemma SummaryProgress(svc: Service, t: UsageTable, text: string, maxChars: nat)
    requires HasBothKeys(t) && maxChars > 0
    ensures var r := SummaryOf(svc, t, text, maxChars);
      && r.progress != []
      && Rising(r.progress)
      && (r.progress[|r.progress| - 1] == 1.0 || r.summary == FallbackSummary(text, 1))
  {
    if |text| > maxChars {
      LongProgress(svc, t, text, SummaryChunks(text, maxChars));
    } else {
      assert Rising([0.5, 1.0]);
    }
  }

  lemma UnavailableLong(svc: Service, t: UsageTable, text: string, chunks: seq<string>)
    requires HasBothKeys(t) && Unavailable(svc)
    ensures var r := LongSummary(svc, t, text, chunks);
      r.summary == FallbackSummary(text, 1) || (chunks == [] && r.summary == "## Combined Summary\n\n")
  {
    UnavailableKept(svc, t, chunks);
    if chunks == [] {
      UnavailableAsk(svc, t, CombinePrompt(Join([], "\n\n")));
    }
  }

  /**
   * With the service unavailable, `get_summary` gives the offline summary of
   * the whole text; the one exception is a long text with no chunk at all
   * (nothing but blank lines), which gets the empty merge under its heading.
   */
  lemma UnavailableSummary(svc: Service, t: UsageTable, text: string, maxChars: nat)
    requires HasBothKeys(t) && maxChars > 0 && Unavailable(svc)
    ensures var r := SummaryOf(svc, t, text, maxChars);
      || r.summary == FallbackSummary(text, 1)
      || (|text| > maxChars && SummaryChunks(text, maxChars) == [] && r.summary == "## Combined Summary\n\n")
  {
    if |text| > maxChars {
      UnavailableLong(svc, t, text, SummaryChunks(text, maxChars));
    } else {
      var r := Ask(svc, t, ChunkPrompt(text, 1, 1));
      UnavailableAsk(svc, t, ChunkPrompt(text, 1, 1));
      ChunkFailedIff(r.0, 1);
    }
  }
}
