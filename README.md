# HybridAI document assistant: a Dafny model

This project models the orchestration layer of a PDF study assistant: the
`HybridAI` class that sits between the text extracted from a PDF and a
remote language model (Perplexity), plus the two pure pieces of the
Supabase storage client.

`HybridAI` keeps a usage table for two API keys. It picks the key with the
lower `requests + 10 * errors` score and sends every prompt through a
request loop with two outer attempts. Each attempt tries the configured
models in turn and returns the first reply it gets. On top of that loop
sit five operations:

- **summaries**:
  - long texts are cut into chunks, first by lines, then at chapter markers;
  - there are at most ten chunks, merged in groups when there are more;
  - each chunk is summarised, and an offline summary replaces any chunk that failed;
  - the chunk summaries are combined into one;
  - when more than half of the chunks fail, the whole text falls back to the offline summary;
- **multiple-choice questions**:
  - a sample of the text is sent with the prompt;
  - the JSON array in the reply is located and filtered to well-formed questions;
  - an offline fill-in-the-blank builder is used when the reply cannot be read;
- **chapter detection** over the lines of the text, with page estimates, and **chapter text extraction**;
- **question answering** over a context cut to a fixed length;
- **usage statistics** per key.

The Supabase part is the configuration check made when the module loads and
the unique name under which an uploaded PDF is stored.

Modules:

| module | file | what it holds |
|---|---|---|
| `Wrappers` | wrappers.dfy | `Option` and `Result` |
| `Text` | text.dfy | the Python string operations the code uses (`strip`, `split`, `join`, slicing, `find`/`rfind`, `replace`, `lower`, `str(int)`) |
| `Patterns` | patterns.dfy | hand-written matchers for the heading and marker regular expressions |
| `LoadBalancer` | load_balancer.dfy | the usage table, key selection, usage update, statistics |
| `Requests` | requests.dfy | the request loop as a function of a transport oracle, and its accounting |
| `RateLimits` | rate_limits.dfy | the "rate limit" test applied to request errors |
| `Chunking` | chunking.dfy | the line splitter, the chapter splitter, the merge-to-limit step |
| `Fallback` | fallback.dfy | the offline summary |
| `Summaries` | summaries.dfy | the chunk loop, failure counting, combining, whole-text fallback, progress |
| `Quiz` | quiz.dfy | JSON location and validation, the offline questions, the text sampler |
| `Chapters` | chapters.dfy | chapter detection, sorting, page estimates, chapter text |
| `Assistant` | assistant.dfy | the `HybridAI` class itself, whose methods update the usage table |
| `Storage` | storage.dfy | the Supabase configuration check and the unique file name |

The remote call is a parameter of type `Transport`: a function from the
call (prompt, key, attempt, model position, model) to an outcome. The
outcome is a reply, a non-200 status, or a raised exception.
`json.loads` is a parameter of type `Parser`. The random choices of the
offline questions come in as `Draw` values, used modulo the size of the
pool they choose from, so every choice `random` could make is reachable.

Pure parts of the source are modelled as functions. Loops that build lists
are modelled as methods proved equal to those functions. The `HybridAI`
class has a mutable `usage` field, and each of its methods states the new
table as a function of the old one.

Where the code does something other than what a reader might expect, the
model follows the code:

- A non-200 response records nothing in the usage table. Only an exception
  records an error (hybrid_ai.py:110-117). One might expect every failure to
  be recorded.
- The merge factor of `_combine_chunks_to_limit` is `len // max + 1`, not
  the ceiling of `len / max` one might expect (hybrid_ai.py:273).

## Model

| member | source | states |
|---|---|---|
| Text.Truncate | hybrid_ai.py:680-681 | a text within the limit is kept; a longer one becomes its first `n` characters followed by "...", `n + 3` characters in all |
| Text.Strip | hybrid_ai.py:205 | `str.strip`: the result is empty exactly when the text is blank, and otherwise starts and ends with a non-space |
| Text.StripIdempotent | hybrid_ai.py:265 | stripping a stripped text changes nothing |
| Text.JoinSplit | hybrid_ai.py:200 | joining the pieces of `split(sep)` with `sep` gives back the text |
| Text.NatToStringInjective | supabase_client.py:53 | different timestamps print differently |
| Patterns.KeywordHeading | hybrid_ai.py:581 | a "Chapter/Section <digits>[: ]<title>" match (any case) has a keyword, a number and a non-empty title |
| Patterns.NumberedHeading | hybrid_ai.py:592 | a "<digits>[. ]<Title>" match has a title that starts with a capital and holds no dot |
| Patterns.Positions | hybrid_ai.py:238-239 | every position listed is one where the pattern matches |
| Patterns.PositionsComplete | hybrid_ai.py:238-239 | every position where the pattern matches is listed |
| Patterns.KeywordFlags | hybrid_ai.py:229-232 | a position is flagged iff a "chapter"/"section" marker, any case, starts there |
| Patterns.NumberFlags | hybrid_ai.py:231 | a position is flagged iff a "<digits>.<spaces><letter>" marker starts there |
| Patterns.ChapterHits | hybrid_ai.py:236-239 | the marker positions all lie inside the text |
| Patterns.ChapterHitsSpec | hybrid_ai.py:228-239 | a position is a hit iff one of the four chapter patterns matches there |
| LoadBalancer.SelectKey | hybrid_ai.py:39-54 | fails iff no key is configured; returns a configured key with the least score; key 2 only when key 1 is missing or key 2 scores strictly lower |
| LoadBalancer.Record | hybrid_ai.py:56-63 | adds 1 to the key's requests, 1 to its errors iff the call failed, leaves the other key alone, and keeps errors ≤ requests |
| LoadBalancer.Stats | hybrid_ai.py:701-713 | requests and errors are copied; the success rate lies in [0, 100], is 100 when there are requests and no errors, and 0 when every request failed (or there was none) |
| Requests.ModelsToTry | hybrid_ai.py:67-70 | the given model alone, or the configured fallback list |
| Requests.Outcomes | hybrid_ai.py:81-99 | one transport outcome per model tried, in order |
| Requests.RunModelsFirstSuccess | hybrid_ai.py:81-117 | the first model that answers wins and no later one is tried; one success is recorded, plus one error for each earlier raised call |
| Requests.RunModelsNoSuccess | hybrid_ai.py:114-117 | with no answer, exactly the raised calls are recorded, each as a request and an error |
| Requests.NonOkStatusRecordsNothing | hybrid_ai.py:110-112 | models that only return non-200 statuses leave the usage unchanged |
| Requests.RunModelsAccounting | hybrid_ai.py:104-117 | errors never decrease, and successes grow by one exactly when a reply came back |
| Requests.Attempts | hybrid_ai.py:74-124 | the retry loop fails with "no keys" iff both keys are missing |
| Requests.AttemptsUnfold | hybrid_ai.py:74-124 | one outer attempt: a reply returns, otherwise the next attempt starts from the updated table, and after the last attempt the loop fails as exhausted |
| Requests.AttemptsNoReply | hybrid_ai.py:119-124 | an attempt without a reply retries while attempts remain, then fails as exhausted |
| Requests.Request | hybrid_ai.py:65-124 | the whole request fails with "no keys" iff both keys are missing |
| Requests.Ask | hybrid_ai.py:65-124 | a request over the configured fallback models fails with "no keys" iff the service has no key |
| Requests.AttemptsAccounting | hybrid_ai.py:74-124 | over all attempts, successes grow by one iff the result is a reply, errors never decrease, and errors ≤ requests is kept |
| Requests.RequestAccounting | hybrid_ai.py:65-124 | the same accounting for the whole request |
| Requests.NoKeysFailsAtOnce | hybrid_ai.py:75-78 | with no key, the request fails at once and the table is unchanged |
| Requests.FirstAttemptSucceeds | hybrid_ai.py:104-109 | when a model answers in the first attempt, that reply is returned with exactly its successes and errors recorded on the chosen key |
| Requests.AlwaysRaisingExhausts | hybrid_ai.py:114-124 | when every call raises, the request fails as exhausted after recording one error per model in each remaining attempt |
| RateLimits.NoKeysErrorNotRateLimited | hybrid_ai.py:356 | the "no API keys" message never passes the rate-limit test |
| RateLimits.ExhaustedErrorNotRateLimited | hybrid_ai.py:356 | the "all attempts failed" message never passes the rate-limit test |
| RateLimits.RequestErrorsAreNotRateLimits | hybrid_ai.py:352-359 | no request error is ever reported as a rate limit |
| Chunking.WalkCovers | hybrid_ai.py:202-208 | the runs of lines the walk builds, laid end to end, are exactly the lines |
| Chunking.WalkRunsFit | hybrid_ai.py:204-208 | every run fits the limit, or is a single line |
| Chunking.LineChunksAreRuns | hybrid_ai.py:196-212 | the chunks are, in order, the stripped joins of consecutive runs covering all lines, each run fitting the limit or being one line; only a blank last run is dropped |
| Chunking.OversizedChunkIsOneLine | hybrid_ai.py:204-206 | a chunk longer than the limit comes from one line longer than the limit |
| Chunking.EmptyTextHasNoChunks | hybrid_ai.py:200-212 | the empty text yields no chunk |
| Chunking.SplitByLines | hybrid_ai.py:196-212 | the line walk computes the specified chunks |
| Chunking.Insert | hybrid_ai.py:241 | inserting keeps positions sorted and adds exactly that position |
| Chunking.Sort | hybrid_ai.py:241 | the marker positions sorted, as a permutation |
| Chunking.FixedSlices | hybrid_ai.py:245 | every slice is non-empty and at most the limit long |
| Chunking.FixedSlicesConcat | hybrid_ai.py:245 | the slices concatenate to the text |
| Chunking.CutConcat | hybrid_ai.py:248-263 | the pieces cut at the sorted markers are contiguous and concatenate to the rest of the text |
| Chunking.CutAtPositions | hybrid_ai.py:248-263 | the cursor loop computes the specified pieces |
| Chunking.ChapterPiecesSpec | hybrid_ai.py:241-265 | with no marker, fixed slices that concatenate to the text; with markers, the non-blank stripped pieces of a cut that concatenates to the text |
| Chunking.SplitAtChapters | hybrid_ai.py:223-265 | the chapter splitter computes the specified pieces |
| Chunking.ChapterSplitOnlyForOneChunk | hybrid_ai.py:214-221 | the chapter split replaces the line chunks only when there was one chunk, the text is over the limit and the split has more than one piece; empty text has no chunk |
| Chunking.SplitTextIntoChunks | hybrid_ai.py:194-221 | the splitter computes the specified chunks |
| Chunking.GroupedCount | hybrid_ai.py:276-278 | grouping by `f` gives at most `k` groups when there are at most `k * f` chunks |
| Chunking.GroupedJoin | hybrid_ai.py:276-278 | joining the groups with blank lines gives the join of the chunks |
| Chunking.FactorBound | hybrid_ai.py:273 | `len // max + 1` groups of that size cover all chunks |
| Chunking.CombinedSpec | hybrid_ai.py:267-280 | few enough chunks are kept as they are; the result has at most `max` chunks, joins to the same text, and merging again changes nothing |
| Chunking.CombineChunksToLimit | hybrid_ai.py:267-280 | the merge loop computes the specified chunks |
| Fallback.Picked | hybrid_ai.py:291-304 | at most one entry per line |
| Fallback.PickedComplete | hybrid_ai.py:291-304 | every non-blank stripped line of the right kind is kept |
| Fallback.PickedSound | hybrid_ai.py:291-304 | every kept entry is a non-blank stripped line of the right kind |
| Fallback.KeyPoints | hybrid_ai.py:315-318 | exactly `min(5, #key sentences)` key points |
| Fallback.Overview | hybrid_ai.py:320-325 | the word-count overview appears iff there are more than 100 words |
| Fallback.Render | hybrid_ai.py:306-327 | the heading comes first, then the key points in order, then the word count when there are more than 100 words |
| Fallback.FallbackSummaryHeading | hybrid_ai.py:309-312 | the offline summary opens with its "## " heading and is never taken for a failed chunk |
| Fallback.KelvinSpellingIsKeySentence | hybrid_ai.py:303 | a line that spells "risk" with the Kelvin sign is a key sentence, since `str.lower()` maps that sign to `k` |
| Fallback.FallbackKeepsKeySentences | hybrid_ai.py:303-318 | each of the first five key sentences appears in the offline summary |
| Fallback.FallbackCountsLongText | hybrid_ai.py:321-324 | a text over 100 words has its word count in the offline summary |
| Fallback.PickLines | hybrid_ai.py:291-304 | the line loop collects the specified titles and key sentences |
| Fallback.NumberPoints | hybrid_ai.py:317-318 | the numbering loop computes the specified key points |
| Fallback.AssembleParts | hybrid_ai.py:306-325 | the parts list is the specified rendering |
| Fallback.CreateFallbackSummary | hybrid_ai.py:282-327 | the builder computes the specified offline summary |
| Summaries.ProcessChunk | hybrid_ai.py:329-359 | a chunk request keeps the usage table well formed |
| Summaries.ChunkFailedIff | hybrid_ai.py:352-359 | a chunk result counts as failed iff the request failed or the model itself replied with the failure text |
| Summaries.KeptSummary | hybrid_ai.py:155-158 | a failed chunk summary is replaced, a good one kept as it is |
| Summaries.KeptSummaries | hybrid_ai.py:143-160 | one summary per chunk; each is the reply when it did not fail and the chunk's offline summary when it did |
| Summaries.Failures | hybrid_ai.py:141-156 | at most one failure per chunk |
| Summaries.FailuresAll | hybrid_ai.py:141-156 | every chunk failed iff the failure count equals the number of chunks |
| Summaries.ChunkRounds | hybrid_ai.py:143-160 | one reply per chunk processed, with the usage threaded through |
| Summaries.RoundStep | hybrid_ai.py:152 | chunk `k` is asked with its number and the total, from the table the earlier chunks left |
| Summaries.NoKeysUnavailable | hybrid_ai.py:39-45 | with no key, every request fails |
| Summaries.AlwaysRaisingUnavailable | hybrid_ai.py:114-124 | a transport that always raises makes every request fail |
| Summaries.UnavailableRounds | hybrid_ai.py:143-160 | when every request fails, every chunk fails |
| Summaries.UnavailableKept | hybrid_ai.py:143-160 | then every chunk is counted as failed and replaced by its offline summary |
| Summaries.CombineSummaries | hybrid_ai.py:361-396 | combining keeps the usage table well formed |
| Summaries.CombineFallbackKeepsAll | hybrid_ai.py:394-396 | when the combine request fails, every chunk summary appears in the result |
| Summaries.SummaryChunks | hybrid_ai.py:132-138 | at most ten chunks, joining to the same text as the unmerged chunks |
| Summaries.ChunkProgress | hybrid_ai.py:144-146 | one progress value per chunk |
| Summaries.MostlyFailedAsReal | hybrid_ai.py:163 | the integer test `2 * failures > n` is the source's `failures > n * 0.5` |
| Summaries.LongSummary | hybrid_ai.py:130-177 | the long-text path keeps the usage table well formed |
| Summaries.ShortSummary | hybrid_ai.py:178-192 | the short-text path never returns a failed chunk text |
| Summaries.SummaryOf | hybrid_ai.py:126-192 | the whole summary keeps the usage table well formed |
| Summaries.ChunkProgressRises | hybrid_ai.py:143-175 | the chunk progress values followed by 0.9, or by 0.9 and 1.0, rise strictly |
| Summaries.LongProgress | hybrid_ai.py:143-177 | progress rises and ends at 1.0, except when the whole-text offline summary is returned |
| Summaries.SummaryProgress | hybrid_ai.py:126-192 | the same for the whole summary |
| Summaries.UnavailableLong | hybrid_ai.py:162-166 | when every request fails, a long text gets the whole-text offline summary (or the bare combined heading when there are no chunks) |
| Summaries.UnavailableSummary | hybrid_ai.py:126-192 | when every request fails, the summary is the whole-text offline summary (or that bare heading) |
| Quiz.McqCheck | hybrid_ai.py:462-463 | passing items have a question, an answer and exactly four options, one of them `==` to the answer under Python's equality (`True == 1`) |
| Quiz.BoolAnswerMatchesNumber | hybrid_ai.py:463 | an answer `true` is found among the options `[1, "b", "c", "d"]`, as Python's `in` finds it |
| Quiz.McqCheckOfList | hybrid_ai.py:462-463 | for an object whose options are a list, the check never raises and passes exactly the well-formed questions |
| Quiz.ValidateSound | hybrid_ai.py:460-464 | the kept items all pass the check and are a subsequence of the parsed items, in order |
| Quiz.ValidateComplete | hybrid_ai.py:460-464 | every passing item is kept |
| Quiz.ValidateRaises | hybrid_ai.py:461-463 | the filter raises iff the check raises on some item |
| Quiz.ParseReplySound | hybrid_ai.py:453-466 | a read reply gives at most `count` questions, each passing the check |
| Quiz.MissingBracketFallsBack | hybrid_ai.py:453-473 | a reply without `[` or without `]` leads to the offline questions |
| Quiz.LongSentences | hybrid_ai.py:485 | at most one sentence per piece |
| Quiz.LongSentencesLong | hybrid_ai.py:485 | every kept sentence is longer than 20 characters |
| Quiz.KeyTermsOf | hybrid_ai.py:486 | the key terms are distinct words of at least two letters |
| Quiz.Without | hybrid_ai.py:496 | the distractor pool is the other terms, one fewer when the answer is among them |
| Quiz.Choose | hybrid_ai.py:496 | `random.sample` draws exactly `k` items |
| Quiz.ChooseFrom | hybrid_ai.py:496 | the drawn items come from the pool |
| Quiz.ChooseDistinct | hybrid_ai.py:496 | a sample of a distinct pool is distinct |
| Quiz.Options | hybrid_ai.py:496-498 | the options hold the answer and up to three distinct distractors from the pool |
| Quiz.FallbackQuestion | hybrid_ai.py:491-504 | the answer is a term and among the options; the options are distinct terms, `min(4, #terms)` of them |
| Quiz.Questions | hybrid_ai.py:489-504 | one question per sentence asked |
| Quiz.QuestionsAt | hybrid_ai.py:489-504 | question `k` is built from sentence `k` with draw `k` |
| Quiz.FallbackMcqs | hybrid_ai.py:479-506 | at most `min(count, #sentences)` questions, exactly that many when the text has a key term |
| Quiz.FallbackMcqsWellFormed | hybrid_ai.py:489-504 | every offline question has its answer among at most four distinct options, all terms of the text |
| Quiz.BuildQuestions | hybrid_ai.py:488-506 | the question loop computes the specified questions |
| Quiz.CreateFallbackMcqs | hybrid_ai.py:479-506 | the offline builder computes the specified questions |
| Quiz.McqJson | hybrid_ai.py:500-504 | a question becomes an object with exactly the keys question, options and answer |
| Quiz.FallbackPassesCheck | hybrid_ai.py:462-463 | an offline question with four options would pass the reply filter |
| Quiz.Every | hybrid_ai.py:539 | `xs[::step]` holds only items of `xs` |
| Quiz.Spread | hybrid_ai.py:535-547 | the sampled paragraphs are taken from the paragraphs |
| Quiz.SampledParagraphs | hybrid_ai.py:528-547 | the sample holds only paragraphs of the text |
| Quiz.ShortSample | hybrid_ai.py:515-519 | with three paragraphs or fewer, the sample is a piece of the text within the limit |
| Quiz.LongSample | hybrid_ai.py:521-560 | otherwise the sample is at most the limit plus 3 characters |
| Quiz.SampleTextBound | hybrid_ai.py:508-561 | the sample is at most `max_chars + 3` long, and within the limit and taken from the text when there are three paragraphs or fewer |
| Chapters.ClassifyLine | hybrid_ai.py:579-613 | a line is a heading iff one of the three patterns matches; the chapter pattern is tried first |
| Chapters.LineHeading | hybrid_ai.py:571-613 | line `i` yields a heading iff its stripped text is non-blank and classified; the heading records `i` and the stripped line |
| Chapters.Headings | hybrid_ai.py:571-613 | one entry per line, each carrying its own line number |
| Chapters.Candidates | hybrid_ai.py:571-613 | the headings found are in line order |
| Chapters.CandidatesSound | hybrid_ai.py:571-613 | every heading found is the heading of its line |
| Chapters.CandidatesComplete | hybrid_ai.py:571-613 | every heading line is found |
| Chapters.CollectHeadings | hybrid_ai.py:571-613 | the line loop collects the specified headings |
| Chapters.Insert | hybrid_ai.py:620 | insertion keeps the (number, line) order and adds exactly one heading |
| Chapters.Sort | hybrid_ai.py:620 | the headings sorted by number, ties in line order, as a permutation |
| Chapters.SortedUnique | hybrid_ai.py:620 | two sorted lists of the same headings are equal |
| Chapters.SortIsStableSort | hybrid_ai.py:620 | any sorted arrangement of the headings is the one computed: the sort is Python's stable sort |
| Chapters.PageOf | hybrid_ai.py:629 | a page estimate is at least 1 and below 100 |
| Chapters.Paged | hybrid_ai.py:622-636 | one chapter per heading |
| Chapters.AddPages | hybrid_ai.py:623-636 | the page loop computes the specified chapters |
| Chapters.DetectChapters | hybrid_ai.py:563-642 | detection computes the specified chapters |
| Chapters.ChaptersSorted | hybrid_ai.py:620 | chapters come in number order, ties in line order |
| Chapters.ChaptersSound | hybrid_ai.py:571-620 | every chapter is the heading of its line |
| Chapters.ChaptersComplete | hybrid_ai.py:571-620 | every heading line gives a chapter |
| Chapters.DetectedAreHeadings | hybrid_ai.py:563-642 | the chapters of a text are exactly its heading lines |
| Chapters.ChapterPages | hybrid_ai.py:622-636 | pages lie in [1, 100); the first chapter starts on page 1; a chapter ends where the next starts; only the last ends at "end" |
| Chapters.PagedPages | hybrid_ai.py:622-636 | the same for any heading list |
| Chapters.ChapterEnd | hybrid_ai.py:652-664 | the chapter runs up to the first later line that opens a chapter or section, or to the end of the text |
| Chapters.ExtractChapterText | hybrid_ai.py:644-670 | the extraction loop computes the specified chapter text |
| Chapters.ChapterTextOpensWithHeading | hybrid_ai.py:666-670 | the text of a detected chapter opens with its heading line |
| Storage.CheckConfig | supabase_client.py:15-24 | accepted iff URL and key are set, the URL starts with "https://" and ends with ".supabase.co", and the bucket is set; a missing bucket is reported only once URL and key pass |
| Storage.AcceptedUrlLength | supabase_client.py:15 | an accepted URL has at least 20 characters |
| Storage.SplitName | supabase_client.py:48-50 | base + extension is the name; without a dot the extension is empty; with one it is the last dot and what follows it |
| Storage.UserPrefix | supabase_client.py:44 | the prefix starts with "user_", ends with "_" and holds the user id when there is one |
| Storage.UniqueFilename | supabase_client.py:53 | the stored name starts with the user prefix and ends with the original extension |
| Storage.StampInjective | supabase_client.py:53 | with 8-character uuids, equal stamps come from equal timestamps and uuids |
| Storage.UniqueFilenameInjective | supabase_client.py:42-53 | two uploads of one file by one user get different names when their timestamps or uuids differ |
| Assistant.McqText | hybrid_ai.py:401-405 | a text within the limit is sent as it is; a longer one is replaced by a sample of at most the limit plus 3 characters |
| Assistant.FallbackJson | hybrid_ai.py:473 | one JSON question per offline question |
| Assistant.McqsFromReply | hybrid_ai.py:447-477 | a failed request gives the offline questions |
| Assistant.McqsOf | hybrid_ai.py:398-477 | generating questions keeps the usage table well formed |
| Assistant.McqJsonAnswer | hybrid_ai.py:500-504 | a question's answer is among its JSON options |
| Assistant.FallbackJsonShape | hybrid_ai.py:479-506 | at most `count` offline questions, each with its answer among its options |
| Assistant.McqsShape | hybrid_ai.py:447-477 | whatever the reply, at most `count` questions come back, each with its answer among its options |
| Assistant.QuestionsFromReply | hybrid_ai.py:447-477 | reading the reply computes the specified questions |
| Assistant.FallbackQuestions | hybrid_ai.py:473-477 | the offline path computes the specified questions |
| Assistant.AnswerOf | hybrid_ai.py:676-699 | answering keeps the usage table well formed |
| Assistant.AnswerContext | hybrid_ai.py:679-699 | the context sent back is cut to 30000 characters plus "..." when longer; the answer is the reply, or a message starting "Error generating answer: " |
| Assistant.ChunkProgressValue | hybrid_ai.py:145-146 | the progress reported for chunk `i` lies in (0, 0.8] |
| Assistant.KeptSummariesSnoc | hybrid_ai.py:155-160 | one more chunk appends its kept summary |
| Assistant.LongSummaryCases | hybrid_ai.py:162-177 | mostly failed: the whole-text offline summary; otherwise the combined summary with progress 0.9 and 1.0 |
| Assistant.ChunkLoopStep | hybrid_ai.py:143-160 | one pass of the chunk loop extends replies, kept summaries, failure count and progress as specified |
| Assistant.HybridAI.constructor | hybrid_ai.py:10-24 | both keys start with no requests and no errors, over the configured fallback models |
| Assistant.HybridAI.Create | hybrid_ai.py:10-24 | creation fails, with the configuration message, iff both keys are missing |
| Assistant.HybridAI.GetAvailableApiKey | hybrid_ai.py:31-54 | returns the key selected by score, which always exists once created |
| Assistant.HybridAI.UpdateUsage | hybrid_ai.py:56-63 | the table becomes the recorded update, keeping errors ≤ requests |
| Assistant.HybridAI.MakeRequestWithFallback | hybrid_ai.py:65-124 | the nested loops compute the specified request result and new table; they never fail for want of a key |
| Assistant.HybridAI.TryModels | hybrid_ai.py:81-117 | the model loop computes the specified reply and updates only the chosen key |
| Assistant.HybridAI.ProcessChunkSummary | hybrid_ai.py:329-359 | computes the specified chunk result and table |
| Assistant.HybridAI.CombineChunkSummaries | hybrid_ai.py:361-396 | computes the specified combined summary and table |
| Assistant.HybridAI.SummariseChunks | hybrid_ai.py:140-160 | the chunk loop gives the specified kept summaries, failure count, progress values and table |
| Assistant.HybridAI.SummariseChunk | hybrid_ai.py:152-158 | one chunk's reply and kept summary |
| Assistant.HybridAI.GetSummary | hybrid_ai.py:126-192 | computes the specified summary, progress and table |
| Assistant.HybridAI.SummariseLongText | hybrid_ai.py:130-177 | computes the specified long-text summary |
| Assistant.HybridAI.SummariseShortText | hybrid_ai.py:178-192 | computes the specified short-text summary |
| Assistant.HybridAI.GenerateMcqs | hybrid_ai.py:398-477 | computes the specified questions and table |
| Assistant.HybridAI.AnswerQuestion | hybrid_ai.py:676-699 | computes the specified answer, context and table |
| Assistant.HybridAI.GetUsageStats | hybrid_ai.py:701-713 | per-key statistics of the current table, success rates within [0, 100] |

## Left out

- HTTP: the request headers and body, `requests.post`, the timeout and `response.json()` are left out. The transport parameter decides each call's outcome. A 200 response whose JSON lacks the content counts as a raised call. So does one whose content is JSON null or not a string: the code records that as a success and returns the value. `get_summary` then raises on it (`startswith` at hybrid_ai.py:155), `generate_mcqs` falls back to the offline questions, and `answer_question` returns it. The model does not follow these paths.
- Logging: the `print` calls are left out.
- Time: `time.time`, `time.sleep`, `last_used`, `last_request_time` and the minimum request interval are left out, because they only affect timing.
- Prompts: prompt texts are abstract values that carry the inputs each prompt embeds. What the model replies has no checkable meaning.
- `json.loads` is a parameter. JSON numbers are integers, and floating-point values are not modelled.
- `re` is not used. The patterns are hand-written matchers over ASCII letters and digits. `\s` is Python's whitespace set, and `re.IGNORECASE` is ASCII case folding only.
- Text.Lower: produces the ASCII letters `str.lower()` produces (from `A`-`Z` and the Kelvin sign) and keeps every other character. Python also lowers other non-ASCII letters, to non-ASCII letters or, for `İ`, to `i` plus a combining dot. None of the key terms searched at hybrid_ai.py:303 ends in `i`, so whether a line contains a key term is decided the same way.
- Quiz.KeyTermsOf: `\b` is decided with ASCII word characters, while Python 3's `\w` also covers non-ASCII letters and digits. The model therefore finds every term `re.findall` at hybrid_ai.py:486 finds, plus ASCII runs that touch a non-ASCII letter, which Python rejects: "Sj" in "Sjögren", "Beh" in "Behçet", "Barr" in "Barré". Such a run can become the answer of an offline question.
- Randomness: `random.choice`, `random.sample` and `random.shuffle` are replaced by `Draw` parameters.
- Key terms: `list(set(...))` keeps the terms in first-occurrence order. Set order in Python is arbitrary, and the draws range over all choices anyway.
- Quiz.Options: fallback questions have `min(4, #terms)` options, so they can have fewer than 4, as in the code. FallbackPassesCheck covers only the four-option case.
- Quiz.SampleText: requires `max_chars >= 400`. Below that the code divides by zero.
- Chunking.ChapterPieces: cuts only one `max_chars` slice per marker, as the code does. A piece can therefore stay longer than the limit.
- Summaries.ProcessChunk: the "Rate limit reached" branch is kept, but the code can never take it. The only errors the request loop raises are the two messages RateLimits proves never mention a rate limit. It is therefore never counted as a failure.
- Progress: the callback is optional in the code. The model always returns the progress values as reals, and with them the sequence of progress reports.
- Progress messages: the texts sent with the progress values are left out.
- The "more than half failed" test is stated on integers, as `2 * failures > n`. Summaries.MostlyFailedAsReal proves it equal to the code's float comparison.
- Usage stats: the success rate is a real. Float rounding is not modelled.
- Inputs: `num_questions` is a natural number. A negative count is not modelled.
- extract_chapter_text takes the line number directly. Its `KeyError` and negative-index paths, and its error string, are left out.
- `int()` of a very long digit string can raise in Python. That path, and the `except` branch of detect_chapters, are left out; every digit run converts.
- Chapters.ChapterEnd: a numbered line with no "Chapter" or "Section" in it does not end a chapter, because the code checks those words first.
- Supabase: client creation, upload, public URL and delete are storage I/O and are left out. The timestamp and the uuid prefix are parameters, and a missing user id or environment value is the empty string.
- Environment: `Config` values read from the environment are parameters of `HybridAI`. The constants (`FALLBACK_MODELS`, the three `MAX_*_CHARS` limits, the configuration message) are copied into Assistant.
