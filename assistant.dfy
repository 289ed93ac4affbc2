/**
 * The `HybridAI` object itself: its configuration, the key table it updates
 * on every request, and the public operations built on the request loop.
 */
module Assistant {
  import opened Wrappers
  import opened Text
  import opened LoadBalancer
  import opened Requests
  import opened Fallback
  import opened Summaries
  import Chunking
  import opened Quiz

  // ---------------------------------------------------------------------
  // Configuration
  // ---------------------------------------------------------------------

  /** `Config.FALLBACK_MODELS`, tried in this order. */
  const FallbackModels: seq<string> := ["sonar", "sonar reasoning", "sonar deep research"]

  /** `Config.MAX_SUMMARY_CHARS` */
  const MaxSummaryChars: nat := 100000

  /** `Config.MAX_MCQ_CHARS` */
  const MaxMcqChars: nat := 50000

  /** `Config.MAX_QA_CHARS` */
  const MaxQaChars: nat := 30000

  /** The `ValueError` raised by `Config.validate_config()` when neither key is set. */
  const MissingKeysError: string :=
    "Configuration errors: At least one PERPLEXITY_API_KEY must be set "
    + "(PERPLEXITY_API_KEY_1 or PERPLEXITY_API_KEY_2)"

  // ---------------------------------------------------------------------
  // The specifications of the operations built on requests
  // ---------------------------------------------------------------------

  /** The text the questions are asked about: the sample of a text over `MAX_MCQ_CHARS`, the text otherwise. */
  function McqText(text: string): (r: string)
    ensures |r| <= MaxMcqChars + 3
    ensures |text| <= MaxMcqChars ==> r == text
  {
    if |text| > MaxMcqChars then
      SampleTextBound(text, MaxMcqChars);
      SampleText(text, MaxMcqChars)
    else text
  }

  /** The offline questions in the shape `generate_mcqs` returns. */
  function FallbackJson(text: string, count: nat, draws: nat -> Draw): (r: seq<Json>)
    ensures |r| == |FallbackMcqs(text, count, draws)|
  {
    var qs := FallbackMcqs(text, count, draws);
    seq(|qs|, i requires 0 <= i < |qs| => McqJson(qs[i]))
  }

  /**
   * The questions `generate_mcqs` returns once the request for `sample` has
   * ended with `r`: those read from the reply, or the offline ones for the
   * same text when the request failed or the reply could not be read.
   */
  function McqsFromReply(r: Result<string, RequestError>, sample: string, count: nat, parse: Parser, draws: nat -> Draw): (qs: seq<Json>)
    ensures r.Failure? ==> qs == FallbackJson(sample, count, draws)
  {
    var parsed := if r.Success? then ParseReply(r.value, parse, count) else None;
    if parsed.Some? then parsed.value else FallbackJson(sample, count, draws)
  }

  /** `generate_mcqs(text, num_questions)` from the key table `t`: the questions and the new table. */
  function McqsOf(svc: Service, t: UsageTable, text: string, count: nat, parse: Parser, draws: nat -> Draw): (res: (seq<Json>, UsageTable))
    requires HasBothKeys(t)
    ensures HasBothKeys(res.1)
  {
    var sample := McqText(text);
    var (r, t') := Ask(svc, t, McqPrompt(sample, count));
    (McqsFromReply(r, sample, count, parse, draws), t')
  }

  /** An item of the result is an object whose answer is among its options. */
  predicate AnswerAmongOptions(q: Json) {
    && q.JObj? && "question" in q.fields && "options" in q.fields && "answer" in q.fields
    && PyIn(q.fields["answer"], q.fields["options"]) == Some(true)
  }

  /** A question whose answer is among its options keeps that in its JSON form. */
  lemma McqJsonAnswer(q: Mcq)
    requires q.answer in q.options
    ensures AnswerAmongOptions(McqJson(q))
  {
    var i :| 0 <= i < |q.options| && q.options[i] == q.answer;
    assert McqJson(q).fields["options"].items[i] == JStr(q.answer);
  }

  /** The offline questions number at most `count`, each with its answer among its options. */
  lemma FallbackJsonShape(sample: string, count: nat, draws: nat -> Draw)
    ensures |FallbackJson(sample, count, draws)| <= count
    ensures forall k :: 0 <= k < |FallbackJson(sample, count, draws)| ==> AnswerAmongOptions(FallbackJson(sample, count, draws)[k])
  {
    var qs := FallbackMcqs(sample, count, draws);
    var js := FallbackJson(sample, count, draws);
    forall k | 0 <= k < |js|
      ensures AnswerAmongOptions(js[k])
    {
      FallbackMcqsWellFormed(sample, count, draws, k);
      McqJsonAnswer(qs[k]);
    }
  }

  /**
   * `generate_mcqs` returns at most `num_questions` questions, every one of
   * them an object whose answer is among its options, whichever way the
   * request ended.
   */
  lemma McqsShape(r: Result<string, RequestError>, sample: string, count: nat, parse: Parser, draws: nat -> Draw)
    ensures |McqsFromReply(r, sample, count, parse, draws)| <= count
    ensures forall k :: 0 <= k < |McqsFromReply(r, sample, count, parse, draws)| ==>
      AnswerAmongOptions(McqsFromReply(r, sample, count, parse, draws)[k])
  {
    if r.Success? && ParseReply(r.value, parse, count).Some? {
      ParseReplySound(r.value, parse, count);
    } else {
      FallbackJsonShape(sample, count, draws);
    }
  }

  /** The end of `generate_mcqs` once its request has ended with `r`. */
  method QuestionsFromReply(r: Result<string, RequestError>, sample: string, count: nat, parse: Parser, draws: nat -> Draw)
    returns (questions: seq<Json>)
    ensures questions == McqsFromReply(r, sample, count, parse, draws)
  {
    if r.Success? {
      var parsed := ParseReply(r.value, parse, count);
      if parsed.Some? {
        return parsed.value;
      }
    }
    questions := FallbackQuestions(sample, count, draws);
  }

  /** The offline questions of `generate_mcqs`, in the shape it returns. */
  method FallbackQuestions(sample: string, count: nat, draws: nat -> Draw) returns (questions: seq<Json>)
    ensures questions == FallbackJson(sample, count, draws)
  {
    var offline := CreateFallbackMcqs(sample, count, draws);
    questions := seq(|offline|, i requires 0 <= i < |offline| => McqJson(offline[i]));
  }

  /** The prefix `answer_question` puts before the text of a failed request. */
  const AnswerErrorPrefix: string := "Error generating answer: "

  /** `answer_question(context, question)` from the key table `t`: the answer, the context sent, and the new table. */
  function AnswerOf(svc: Service, t: UsageTable, context: string, question: string): (res: (string, string, UsageTable))
    requires HasBothKeys(t)
    ensures HasBothKeys(res.2)
  {
    var sent := Truncate(context, MaxQaChars);
    var (r, t') := Ask(svc, t, QaPrompt(sent, question));
    (if r.Success? then r.value else AnswerErrorPrefix + ErrorMessage(r.error), sent, t')
  }

  /**
   * The context `answer_question` sends and returns is the given one when it
   * fits `MAX_QA_CHARS`, and otherwise its first `MAX_QA_CHARS` characters
   * followed by an ellipsis; a failed request is reported as an answer that
   * begins with the error prefix.
   */
  lemma AnswerContext(svc: Service, t: UsageTable, context: string, question: string)
    requires HasBothKeys(t)
    ensures var res := AnswerOf(svc, t, context, question);
      && (|context| <= MaxQaChars ==> res.1 == context)
      && (|context| > MaxQaChars ==> |res.1| == MaxQaChars + 3 && StartsWith(res.1, context[..MaxQaChars]) && EndsWith(res.1, "..."))
    ensures var res := AnswerOf(svc, t, context, question);
      var r := Ask(svc, t, QaPrompt(res.1, question)).0;
      (r.Success? ==> res.0 == r.value) && (r.Failure? ==> StartsWith(res.0, AnswerErrorPrefix))
  {
    var res := AnswerOf(svc, t, context, question);
    var r := Ask(svc, t, QaPrompt(res.1, question)).0;
    if r.Failure? {
      StartsWithAppend(AnswerErrorPrefix, ErrorMessage(r.error));
    }
  }

  // ---------------------------------------------------------------------
  // The object
  // ---------------------------------------------------------------------

  class HybridAI {
    /** The two keys, the model list and the transport of every request this object makes. */
    const svc: Service

    /** `key_usage`: the counters of both keys. */
    var usage: UsageTable

    /** What every method keeps: a table for both keys with no more errors than requests, and a configured key. */
    ghost predicate Valid()
      reads this
    {
      && Consistent(usage)
      && svc.fallbackModels == FallbackModels
      && (svc.key1 != "" || svc.key2 != "")
    }

    /** The object `__init__` builds once the configuration has been validated. */
    constructor (key1: string, key2: string, transport: Transport)
      requires key1 != "" || key2 != ""
      ensures svc == Service(key1, key2, FallbackModels, transport)
      ensures usage == FreshTable
      ensures Valid()
    {
      svc := Service(key1, key2, FallbackModels, transport);
      usage := FreshTable;
      forall k: KeyName
        ensures k in FreshTable
      {
        if k == Key1 {} else {}
      }
    }

    /**
     * `HybridAI()`: `validate_config` raises when neither key is set;
     * otherwise the keys are read and both counters start at zero.
     */
    static method Create(key1: string, key2: string, transport: Transport) returns (r: Result<HybridAI, string>)
      ensures r.Failure? <==> key1 == "" && key2 == ""
      ensures r.Failure? ==> r.error == MissingKeysError
      ensures r.Success? ==> fresh(r.value) && r.value.Valid() && r.value.usage == FreshTable
      ensures r.Success? ==> r.value.svc == Service(key1, key2, FallbackModels, transport)
    {
      if key1 == "" && key2 == "" {
        return Failure(MissingKeysError);
      }
      var ai := new HybridAI(key1, key2, transport);
      return Success(ai);
    }

    /** `_get_available_api_key()`: the key the next attempt uses (the wait between requests is not modelled). */
    method GetAvailableApiKey() returns (r: Result<KeyName, string>)
      requires Valid()
      ensures r == SelectKey(svc.key1, svc.key2, usage)
      ensures r.Success?
    {
      r := SelectKey(svc.key1, svc.key2, usage);
    }

    /** `_update_usage(key_name, success)` */
    method UpdateUsage(k: KeyName, success: bool)
      requires Valid()
      modifies this
      ensures Valid()
      ensures usage == Record(old(usage), k, success)
    {
      usage := Record(usage, k, success);
    }

    /**
     * `_make_request_with_fallback(prompt, model)`: two attempts, each with
     * the key chosen at its start, each trying every model in turn. The reply
     * and the new table are those the specification gives, and a configured
     * object never fails for want of a key.
     */
    method MakeRequestWithFallback(prompt: Prompt, model: Option<string>) returns (r: Result<string, RequestError>)
      requires Valid()
      modifies this
      ensures Valid()
      ensures (r, usage) == Request(svc.key1, svc.key2, old(usage), prompt, model, svc.fallbackModels, svc.transport)
      ensures r != Failure(NoApiKeys)
    {
      RequestAccounting(svc.key1, svc.key2, usage, prompt, model, svc.fallbackModels, svc.transport);
      ghost var goal := Request(svc.key1, svc.key2, usage, prompt, model, svc.fallbackModels, svc.transport);
      var models := ModelsToTry(model, svc.fallbackModels);
      var attempt := 0;
      while attempt < MaxRetries
        invariant attempt <= MaxRetries && Valid()
        invariant attempt < MaxRetries ==> Attempts(svc.key1, svc.key2, usage, prompt, models, svc.transport, attempt) == goal
        invariant attempt == MaxRetries ==> goal == (Failure(AllAttemptsFailed), usage)
        decreases MaxRetries - attempt
      {
        var selected := GetAvailableApiKey();
        var k := selected.value;
        ghost var before := usage;
        ghost var os := Outcomes(svc.transport, prompt, k, attempt, models);
        var reply := TryModels(prompt, k, attempt, models);
        if reply.Some? {
          AttemptsUnfold(svc.key1, svc.key2, before, prompt, models, svc.transport, attempt, k);
          return Success(reply.value);
        }
        AttemptsNoReply(svc.key1, svc.key2, before, prompt, models, svc.transport, attempt, k, usage[k]);
        attempt := attempt + 1;
      }
      r := Failure(AllAttemptsFailed);
    }

    /**
     * The inner loop over the models for one attempt with the key `k`: the
     * first reply, and only that key's counters changed as the specification
     * of the loop says.
     */
    method TryModels(prompt: Prompt, k: KeyName, attempt: nat, models: seq<string>) returns (reply: Option<string>)
      requires Valid()
      modifies this
      ensures Valid()
      ensures var run := RunModels(Outcomes(svc.transport, prompt, k, attempt, models), old(usage)[k]);
        reply == run.0 && usage == old(usage)[k := run.1]
    {
      ghost var os := Outcomes(svc.transport, prompt, k, attempt, models);
      ghost var start := usage;
      var j := 0;
      while j < |models|
        invariant j <= |models| && Valid()
        invariant usage == start[k := usage[k]]
        invariant RunModels(os[j..], usage[k]) == RunModels(os, start[k])
        decreases |models| - j
      {
        var outcome := svc.transport(Call(prompt, k, attempt, j, models[j]));
        assert os[j..][0] == outcome && os[j..][1..] == os[j + 1..];
        if outcome.Response? && outcome.status == 200 && outcome.content.Some? {
          UpdateUsage(k, true);
          return outcome.content;
        } else if outcome.Raised? || (outcome.Response? && outcome.status == 200) {
          UpdateUsage(k, false);
        }
        j := j + 1;
      }
      reply := None;
    }

    /** `_process_chunk_summary(text, chunk_num, total_chunks)` */
    method ProcessChunkSummary(text: string, chunkNum: nat, totalChunks: nat) returns (summary: string)
      requires Valid()
      modifies this
      ensures Valid()
      ensures (summary, usage) == ProcessChunk(svc, old(usage), text, chunkNum, totalChunks)
    {
      var r := MakeRequestWithFallback(ChunkPrompt(text, chunkNum, totalChunks), None);
      summary := ChunkSummaryText(r, chunkNum);
    }

    /** `_combine_summaries(summaries)` */
    method CombineChunkSummaries(summaries: seq<string>) returns (combined: string)
      requires Valid()
      modifies this
      ensures Valid()
      ensures (combined, usage) == CombineSummaries(svc, old(usage), summaries)
    {
      var joined := Join(summaries, "\n\n");
      var r := MakeRequestWithFallback(CombinePrompt(joined), None);
      if r.Success? {
        combined := r.value;
      } else {
        combined := "## Combined Summary\n\n" + joined;
      }
    }

    /**
     * The chunk loop of `get_summary`: every chunk summarised in turn, a
     * failed one replaced by its offline summary and counted, and the
     * progress value reported before each request.
     */
    method SummariseChunks(chunks: seq<string>) returns (summaries: seq<string>, failures: nat, progress: seq<real>)
      requires Valid()
      modifies this
      ensures Valid()
      ensures var rounds := ChunkRounds(svc, old(usage), chunks, |chunks|);
        && usage == rounds.usage
        && summaries == KeptSummaries(rounds.replies, chunks)
        && failures == Failures(rounds.replies)
        && progress == ChunkProgress(|chunks|)
    {
      ghost var t0 := usage;
      ghost var replies: seq<string> := [];
      summaries, failures, progress := [], 0, [];
      for i := 0 to |chunks|
        invariant Valid()
        invariant ChunkRounds(svc, t0, chunks, i) == Round(replies, usage)
        invariant summaries == KeptSummaries(replies, chunks)
        invariant failures == Failures(replies)
        invariant progress == ChunkProgress(|chunks|)[..i]
      {
        var p := ChunkProgressValue(i, |chunks|);
        ghost var before := usage;
        var reply, kept := SummariseChunk(chunks[i], i + 1, |chunks|);
        var failed := if ChunkFailed(reply) then 1 else 0;
        ChunkLoopStep(svc, t0, chunks, i, replies, before, reply, usage, summaries, kept, failures, failed, progress, p);
        replies := replies + [reply];
        failures := failures + failed;
        summaries := summaries + [kept];
        progress := progress + [p];
      }
    }

    /**
     * One round of the chunk loop of `get_summary`: the reply for the chunk,
     * and the summary kept for it, its offline summary when the reply reports
     * a failure.
     */
    method SummariseChunk(chunk: string, chunkNum: nat, totalChunks: nat) returns (reply: string, kept: string)
      requires Valid()
      modifies this
      ensures Valid()
      ensures (reply, usage) == ProcessChunk(svc, old(usage), chunk, chunkNum, totalChunks)
      ensures kept == KeptSummary(reply, chunk, chunkNum)
    {
      reply := ProcessChunkSummary(chunk, chunkNum, totalChunks);
      kept := reply;
      if ChunkFailed(reply) {
        kept := CreateFallbackSummary(chunk, chunkNum, totalChunks);
      }
    }

    /**
     * `get_summary(text, progress_callback)`: the summary, and the values
     * handed to the progress callback in order.
     */
    method GetSummary(text: string) returns (summary: string, progress: seq<real>)
      requires Valid()
      modifies this
      ensures Valid()
      ensures SummaryRun(summary, progress, usage) == SummaryOf(svc, old(usage), text, MaxSummaryChars)
    {
      if |text| > MaxSummaryChars {
        var chunks := Chunking.SplitTextIntoChunks(text, MaxSummaryChars);
        if |chunks| > MaxChunks {
          chunks := Chunking.CombineChunksToLimit(chunks, MaxChunks);
        }
        summary, progress := SummariseLongText(text, chunks);
      } else {
        summary, progress := SummariseShortText(text);
      }
    }

    /** The branch of `get_summary` for a text over `MAX_SUMMARY_CHARS`, split into `chunks`. */
    method SummariseLongText(text: string, chunks: seq<string>) returns (summary: string, progress: seq<real>)
      requires Valid()
      modifies this
      ensures Valid()
      ensures SummaryRun(summary, progress, usage) == LongSummary(svc, old(usage), text, chunks)
    {
      ghost var t0 := usage;
      var summaries, failures;
      summaries, failures, progress := SummariseChunks(chunks);
      LongSummaryCases(svc, t0, text, chunks, summaries, failures, progress, usage);
      if MostlyFailed(failures, |chunks|) {
        progress := progress + [0.9];
        summary := CreateFallbackSummary(text, 1, 1);
        return;
      }
      progress := progress + [0.9];
      summary := CombineChunkSummaries(summaries);
      progress := progress + [1.0];
    }

    /** The branch of `get_summary` for a text that fits `MAX_SUMMARY_CHARS`. */
    method SummariseShortText(text: string) returns (summary: string, progress: seq<real>)
      requires Valid()
      modifies this
      ensures Valid()
      ensures SummaryRun(summary, progress, usage) == ShortSummary(svc, old(usage), text)
    {
      progress := [0.5];
      summary := ProcessChunkSummary(text, 1, 1);
      if ChunkFailed(summary) {
        summary := CreateFallbackSummary(text, 1, 1);
      }
      progress := progress + [1.0];
    }

    /**
     * `generate_mcqs(text, num_questions)` with `json.loads` as `parse` and
     * the random choices of the offline builder as `draws`.
     */
    method GenerateMcqs(text: string, count: nat, parse: Parser, draws: nat -> Draw) returns (questions: seq<Json>)
      requires Valid()
      modifies this
      ensures Valid()
      ensures (questions, usage) == McqsOf(svc, old(usage), text, count, parse, draws)
    {
      var sample := McqText(text);
      var r := MakeRequestWithFallback(McqPrompt(sample, count), None);
      questions := QuestionsFromReply(r, sample, count, parse, draws);
    }

    /** `answer_question(context, question)`: the answer and the context that was sent. */
    method AnswerQuestion(context: string, question: string) returns (answer: string, sent: string)
      requires Valid()
      modifies this
      ensures Valid()
      ensures (answer, sent, usage) == AnswerOf(svc, old(usage), context, question)
    {
      sent := context;
      if |context| > MaxQaChars {
        sent := context[..MaxQaChars] + "...";
      }
      var r := MakeRequestWithFallback(QaPrompt(sent, question), None);
      if r.Success? {
        answer := r.value;
      } else {
        answer := AnswerErrorPrefix + ErrorMessage(r.error);
      }
    }

    /** `get_usage_stats()`: both keys' counters, with success rates between 0 and 100. */
    method GetUsageStats() returns (s: UsageStats)
      requires Valid()
      ensures s == UsageStats(Stats(usage[Key1]), Stats(usage[Key2]))
      ensures 0.0 <= s.key1.successRate <= 100.0 && 0.0 <= s.key2.successRate <= 100.0
    {
      s := UsageStats(Stats(usage[Key1]), Stats(usage[Key2]));
    }
  }

  /** One more reply appends the summary kept for it. */
  lemma KeptSummariesSnoc(replies: seq<string>, s: string, chunks: seq<string>)
    requires |replies| < |chunks|
    ensures KeptSummaries(replies + [s], chunks)
      == KeptSummaries(replies, chunks) + [KeptSummary(s, chunks[|replies|], |replies| + 1)]
  {
    var a := KeptSummaries(replies + [s], chunks);
    var b := KeptSummaries(replies, chunks) + [KeptSummary(s, chunks[|replies|], |replies| + 1)];
    forall j | 0 <= j < |a|
      ensures a[j] == b[j]
    {
      assert (replies + [s])[j] == if j < |replies| then replies[j] else s;
    }
  }

  /** The two ways the long-text branch of `get_summary` ends, once the chunk loop is done. */
  lemma LongSummaryCases(svc: Service, t: UsageTable, text: string, chunks: seq<string>,
                         summaries: seq<string>, failures: nat, progress: seq<real>, u: UsageTable)
    requires HasBothKeys(t)
    requires var rounds := ChunkRounds(svc, t, chunks, |chunks|);
      && u == rounds.usage
      && summaries == KeptSummaries(rounds.replies, chunks)
      && failures == Failures(rounds.replies)
      && progress == ChunkProgress(|chunks|)
    ensures MostlyFailed(failures, |chunks|) ==>
      LongSummary(svc, t, text, chunks) == SummaryRun(FallbackSummary(text, 1), progress + [0.9], u)
    ensures !MostlyFailed(failures, |chunks|) ==>
      var (combined, u') := CombineSummaries(svc, u, summaries);
      LongSummary(svc, t, text, chunks) == SummaryRun(combined, progress + [0.9] + [1.0], u')
  {
    assert progress + [0.9] + [1.0] == progress + [0.9, 1.0];
  }

  /** The chunk loop of `get_summary` keeps its invariant from one chunk to the next. */
  lemma ChunkLoopStep(svc: Service, t: UsageTable, chunks: seq<string>, i: nat, replies: seq<string>, u: UsageTable,
                      reply: string, u': UsageTable, summaries: seq<string>, kept: string, failures: nat, failed: nat,
                      progress: seq<real>, p: real)
    requires HasBothKeys(t) && i < |chunks|
    requires ChunkRounds(svc, t, chunks, i) == Round(replies, u)
    requires summaries == KeptSummaries(replies, chunks)
    requires failures == Failures(replies)
    requires progress == ChunkProgress(|chunks|)[..i]
    requires (reply, u') == ProcessChunk(svc, u, chunks[i], i + 1, |chunks|)
    requires kept == KeptSummary(reply, chunks[i], i + 1)
    requires failed == if ChunkFailed(reply) then 1 else 0
    requires p == ChunkProgress(|chunks|)[i]
    ensures ChunkRounds(svc, t, chunks, i + 1) == Round(replies + [reply], u')
    ensures summaries + [kept] == KeptSummaries(replies + [reply], chunks)
    ensures failures + failed == Failures(replies + [reply])
    ensures progress + [p] == ChunkProgress(|chunks|)[..i + 1]
  {
    RoundsSnoc(svc, t, chunks, i, replies, u, reply, u');
    KeptSummariesSnoc(replies, reply, chunks);
    FailuresSnoc(replies, reply);
    PrefixSnoc(ChunkProgress(|chunks|), i);
  }

  /** One more round of the chunk loop, from the round before it. */
  lemma RoundsSnoc(svc: Service, t: UsageTable, chunks: seq<string>, i: nat, replies: seq<string>, u: UsageTable, s: string, u': UsageTable)
    requires HasBothKeys(t) && i < |chunks|
    requires ChunkRounds(svc, t, chunks, i) == Round(replies, u)
    requires (s, u') == ProcessChunk(svc, u, chunks[i], i + 1, |chunks|)
    ensures ChunkRounds(svc, t, chunks, i + 1) == Round(replies + [s], u')
  {
  }

  /** One more reply adds one failure exactly when it reports a failed chunk. */
  lemma FailuresSnoc(replies: seq<string>, s: string)
    ensures Failures(replies + [s]) == Failures(replies) + if ChunkFailed(s) then 1 else 0
  {
    assert (replies + [s])[..|replies|] == replies;
  }

  /** The progress value `get_summary` reports before it sends chunk `i` (from 0) of `n`. */
  method ChunkProgressValue(i: nat, n: nat) returns (p: real)
    requires i < n
    ensures p == ChunkProgress(n)[i]
    ensures 0.0 < p <= 0.8
  {
    p := (i + 1) as real / n as real * 0.8;
    ProgressBound(i, n);
  }

  lemma PrefixSnoc<T>(s: seq<T>, i: nat)
    requires i < |s|
    ensures s[..i + 1] == s[..i] + [s[i]]
  {
  }
}
