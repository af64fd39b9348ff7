# Hybrid retrieval pipeline: a Dafny model

This project models the deterministic core of a hybrid book-search
service. The service:

- cuts a document into chunks, by fixed-size windows or by
  "Chapter <roman numeral>" headings;
- answers a question by running two retrieval lanes: lexical full-text
  search with BM25, and vector search;
- fuses the two result lists with Reciprocal Rank Fusion (k = 60);
- asks a language model to rerank the fused passages, and falls back to
  fused order when that fails;
- asks the model for a cited answer;
- records each stage in a five-step trace.

It also models the batching and rate-limit retry policy used to embed
chunks, and the standalone lexical search endpoint.

Everything outside the process is a parameter of the model:

- the language model: `prompt -> Ok(reply) | Err(message)`;
- `JSON.parse` of the reranker's reply: `text -> Some(entries) | None`;
- the embedding service: the outcome of the n-th request;
- the two retrieval lanes: their passages, or the message of what they
  throw;
- the rows the full-text index matches, with their raw `bm25()` values;
- the measured stage durations.

The modules follow the source files one to one:

| module | source | form |
|---|---|---|
| `Types` | lib/types.ts | datatypes |
| `JsText` | (the ECMAScript string operations the core calls) | functions and lemmas |
| `StableSort` | (`Array.prototype.sort`, which is stable) | functions and lemmas |
| `SearchUtils` | lib/search-utils.ts | functions; fusion as a method with loops over a `map` |
| `Chunk` | lib/chunk.ts | methods with loops, proved against specification functions |
| `Rerank` | lib/rerank.ts | functions |
| `Embeddings` | lib/embeddings.ts | methods with loops, proved against specification functions |
| `HybridRoute` | app/api/search/hybrid/route.ts | methods that append to the trace |
| `Bm25Route` | app/api/search/bm25/route.ts | functions |

Where the service's documented behaviour and the code disagree, the model follows the code:

- The answer stage always runs, even with no passages. Answer generation
  itself returns "No relevant passages found." for an empty list.
- A reranker reply that holds no `[...]` at all gives an empty result.
  It does not give the first topN candidates, which is what happens when
  bracketed text fails to parse.

## Model

| member | source | states |
|---|---|---|
| JsText.TrimEnds | lib/search-utils.ts:119 | a trimmed string neither starts nor ends with whitespace |
| JsText.TrimEmptyIffBlank | lib/chunk.ts:39 | `s.trim()` is empty exactly when every character of s is whitespace |
| JsText.Words | lib/search-utils.ts:22-23 | every piece that `split(/\s+/).filter(Boolean)` yields is a non-empty run of non-whitespace |
| JsText.JoinEmptyIff | lib/search-utils.ts:27 | joining non-empty pieces gives "" only when there are none |
| JsText.WordsOfJoin | lib/search-utils.ts:22-27 | splitting a space-joined list of words on whitespace gives the list back |
| JsText.SliceInRange | lib/chunk.ts:14 | `slice(start, start + len)` is the substring from start, cut at the end of the text |
| JsText.PrefixLength | lib/rerank.ts:51 | `slice(0, n)` keeps the first n elements for n >= 0 and drops the last -n for n < 0 |
| JsText.IndexOfFrom | lib/chunk.ts:43 | `indexOf` finds the first occurrence at or after its start, and -1 means there is none |
| JsText.IndexOfAt | lib/chunk.ts:43 | searching from a position where the part occurs finds that very position |
| JsText.NatToStringRoundTrip | lib/rerank.ts:25 | a number rendered in a template string is a decimal numeral that reads back as the number |
| StableSort.SortDescCorrect | lib/search-utils.ts:111 | the sort orders by non-increasing key and is a permutation of its input |
| StableSort.SortDescStable | lib/search-utils.ts:111 | elements with equal keys keep their input order |
| StableSort.SortDescMap | lib/search-utils.ts:110-115 | sorting and then rewriting the elements is rewriting and then sorting, when the rewrite keeps the key |
| StableSort.SortDescMapMultiset | lib/search-utils.ts:110-115 | sorting keeps every projection of the elements, counted with multiplicity |
| SearchUtils.StripPunctuation | lib/search-utils.ts:21 | only word characters and whitespace survive the punctuation strip |
| SearchUtils.RemoveStopWordsCounts | lib/search-utils.ts:25 | no stop word survives, and every other word keeps all its occurrences |
| SearchUtils.RemoveStopWordsAppend | lib/search-utils.ts:25 | the filter keeps word order: filtering a concatenation filters each part in place |
| SearchUtils.LoweredWordTerm | lib/search-utils.ts:24-26 | a lower-cased `\w` word that is not a stop word becomes a quoted lower-case term |
| SearchUtils.SanitizedTerms | lib/search-utils.ts:18-28 | every emitted term is `"` + lower-case word characters + `"` and not a stop word, and the emitted string splits back into exactly those terms |
| SearchUtils.SanitizedEmptyIff | lib/search-utils.ts:18-28 | the sanitised query is empty exactly when no term survives |
| SearchUtils.StripEnclosingQuotesSubsumed | lib/search-utils.ts:20-21 | removing an enclosing `"` changes nothing once punctuation is stripped |
| SearchUtils.AdjustedScore | lib/search-utils.ts:39-44 | the score is bm25 - 5.0 exactly when the lower-cased text contains the phrase, and bm25 otherwise |
| SearchUtils.SqlLimit | lib/search-utils.ts:50 | `LIMIT n` keeps the first n rows, and all rows for a negative n |
| SearchUtils.Bm25EmptyQuery | lib/search-utils.ts:36-37 | a query with no surviving term gives no passage, whatever the index holds |
| SearchUtils.Bm25Ranking | lib/search-utils.ts:39-50 | at most topK results, ascending by adjusted score; they are a prefix of a permutation of the candidates, and no candidate left out scores better than one kept |
| SearchUtils.Bm25RowsAreCandidates | lib/search-utils.ts:41-64 | each result is a candidate row with its bonus applied and its other fields unchanged |
| SearchUtils.RrfContribution | lib/search-utils.ts:87-91 | the contribution at rank r is 1/(60 + r + 1): positive, and at most 1/61 |
| SearchUtils.LaneScoreStep | lib/search-utils.ts:90-108 | each listing of a chunk adds its rank's contribution to that chunk's score, repeats in one lane included |
| SearchUtils.FirstSeenIds | lib/search-utils.ts:88-110 | the key order holds each chunk id of the input exactly once |
| SearchUtils.FirstSeenIdsPrefix | lib/search-utils.ts:90-108 | the BM25 lane's ids come first, then the ids that are new in the vector lane |
| SearchUtils.AddContribution | lib/search-utils.ts:91-97 | one loop step adds the contribution to an existing entry, or creates the entry with the passage it sees |
| SearchUtils.FuseBm25Lane | lib/search-utils.ts:90-98 | after the first loop the map holds the BM25 lane's scores and payloads, keyed in first-seen order |
| SearchUtils.FuseVectorLane | lib/search-utils.ts:100-108 | after the second loop the map holds both lanes' summed scores and the first-seen payloads |
| SearchUtils.MergeAndDeduplicate | lib/search-utils.ts:82-116 | the fused list: first-seen passages with RRF totals as scores, stably sorted by score |
| SearchUtils.FirstSeenPassagesIds | lib/search-utils.ts:110 | the entries before sorting carry the first-seen ids in order |
| SearchUtils.FusedOnePerChunk | lib/search-utils.ts:88-110 | the output has exactly one entry per distinct chunk id found in either lane |
| SearchUtils.FusedEntry | lib/search-utils.ts:92-115 | each entry is the first occurrence of its chunk (BM25 before vector), with its score replaced by the sum of its contributions |
| SearchUtils.FusedSorted | lib/search-utils.ts:110-111 | the output is non-increasing by score |
| SearchUtils.FusedTiesFirstSeen | lib/search-utils.ts:110-111 | entries of equal score keep first-seen order |
| SearchUtils.FindOperatorFrom | lib/search-utils.ts:121 | the scan finds an operator exactly when AND, OR or NOT occurs as a whole word |
| SearchUtils.ClassifyIntent | lib/search-utils.ts:118-123 | quote exactly when the trimmed query is `"…"` on one line; otherwise boolean exactly when it has an upper-case AND, OR or NOT as a whole word; otherwise conceptual |
| Chunk.Step | lib/chunk.ts:11 | the advance is at least 1 and at least size - overlap |
| Chunk.WindowCountIff | lib/chunk.ts:12-17 | window k exists exactly when k·step is inside the text |
| Chunk.ChunkText | lib/chunk.ts:4-20 | ceil(length / step) chunks; chunk k starts at k·step and is the window there |
| Chunk.ChunkTextIsWindows | lib/chunk.ts:4-20 | the loop's output is the list of windows |
| Chunk.WindowIsSlice | lib/chunk.ts:13-16 | a window's text is text[offset .. min(offset + size, length)] |
| Chunk.WindowsTileText | lib/chunk.ts:11-17 | with overlap 0, the chunk texts concatenate back to the text |
| Chunk.WindowsCover | lib/chunk.ts:11-17 | with 0 <= overlap < size, every character lies in some window |
| Chunk.WindowsExample | lib/chunk.ts:11-17 | size 10 on 25 characters gives the chunks at 0, 10 and 20 |
| Chunk.HeadingEnd | lib/chunk.ts:22 | a heading match ends at the end of the text or at a line break |
| Chunk.FindHeadingFrom | lib/chunk.ts:37 | `CHAPTER_RE.test` succeeds exactly when a match starts at some position |
| Chunk.SplitPartsWell | lib/chunk.ts:29 | the split parts lie end to end over the text, alternating heading-free text and complete heading matches |
| Chunk.HeadingPassesTest | lib/chunk.ts:37-38 | every captured heading passes the test |
| Chunk.GapFailsTest | lib/chunk.ts:37-39 | no text between headings passes the test |
| Chunk.ScanStartsFrom | lib/chunk.ts:29 | every match start the split takes lies inside the text, after the scan position, and begins a match of CHAPTER_RE |
| Chunk.ScanStartsApart | lib/chunk.ts:29 | the matches the split takes do not overlap: each ends at or before the next one starts, so a match nested in an earlier one is never taken |
| Chunk.ScanSkip | lib/chunk.ts:29 | scanning over positions where no match starts takes no separator |
| Chunk.LabelAtUnique | lib/chunk.ts:32-38 | at most one section label holds at any offset: "Preamble" before the first heading, otherwise the trimmed text of the last heading the split separated on |
| Chunk.HeadingPart | lib/chunk.ts:37-38 | a heading part yields no chapter and becomes the section label, trimmed |
| Chunk.BodyPart | lib/chunk.ts:39-46 | a body part yields at most one chapter, found at its own offset and labelled with the current section |
| Chunk.PartStep | lib/chunk.ts:36-46 | one loop pass adds the part's chapter, if any, and moves to the next section label |
| Chunk.CollectChapters | lib/chunk.ts:29-47 | the first loop collects exactly the chapters of the text |
| Chunk.ChaptersSound | lib/chunk.ts:32-47 | every chapter is non-blank text at its own offset and holds no heading start; its label is "Preamble" or the trimmed text of the last heading the split separated on before it, the only label that holds there; chapters do not overlap |
| Chunk.SplitChapter | lib/chunk.ts:50-68 | a chapter of at most maxChunkSize becomes one chunk; a longer one becomes windows at offset + k·step |
| Chunk.SplitChapterPieces | lib/chunk.ts:50-68 | the inner loop's output is the chapter's pieces |
| Chunk.ChapterPiecesShape | lib/chunk.ts:51-67 | sub-chunks sit at offset + k·step, share the chapter's section and are at most maxChunkSize long |
| Chunk.ChunkByChapter | lib/chunk.ts:24-72 | the output is the pieces of every chapter, in order |
| Chunk.ChunkByChapterSound | lib/chunk.ts:24-72 | every chunk is the original text sliced at its offset and holds no heading start; it carries the one section label that holds there, from the last heading the split separated on, or "Preamble"; offsets strictly increase |
| Rerank.PreviewLine | lib/rerank.ts:24-25 | `[i] (chunkId=…)` and the first 300 characters, with "..." exactly when the text is longer |
| Rerank.PreviewLines | lib/rerank.ts:22-27 | one preview line per candidate |
| Rerank.PromptListsEveryCandidate | lib/rerank.ts:29-38 | the prompt contains every candidate's preview line |
| Rerank.BracketMatch | lib/rerank.ts:45 | a match exists exactly when some `[` precedes some `]`, and it runs from the first `[` to the last `]` |
| Rerank.InRange | lib/rerank.ts:56 | exactly the entries whose index names a candidate are kept, each as often as given |
| Rerank.RankedInRange | lib/rerank.ts:55-58 | every entry that survives the cut names a candidate |
| Rerank.SortKeepsEntries | lib/rerank.ts:57 | the sort is by non-increasing score, keeps every entry and keeps reply order among equal scores |
| Rerank.TopOfRanking | lib/rerank.ts:58 | the cut keeps min(topN, n) best entries, which outrank every entry dropped |
| Rerank.SelectedEntries | lib/rerank.ts:60-63 | each output is the named candidate with score / 10 |
| Rerank.SelectRanking | lib/rerank.ts:55-63 | the output is the best in-range entries, non-increasing, as long as topN allows, each the named candidate rescored (duplicate indices give duplicates) |
| Rerank.SelectNormalises | lib/rerank.ts:62 | scores on the 0-10 scale come out between 0 and 1 |
| Rerank.FromReply | lib/rerank.ts:43-63 | no bracketed text gives []; bracketed text that fails to parse gives the first topN candidates unchanged |
| Rerank.RerankPassages | lib/rerank.ts:13-64 | no candidates gives [] without consulting the model; a model error propagates; otherwise the reply decides |
| Rerank.RerankedFromCandidates | lib/rerank.ts:55-63 | every passage returned is a candidate with at most its score changed, and there are at most topN of them |
| Rerank.ContextLine | lib/rerank.ts:77 | `[Chunk id, section]: ` and the first 500 characters, without the section when it is missing or empty |
| Rerank.ContextLines | lib/rerank.ts:74-79 | one context line per passage |
| Rerank.AnswerPromptCitesEveryPassage | lib/rerank.ts:81-88 | the answer prompt contains every passage's context line |
| Rerank.GenerateAnswer | lib/rerank.ts:66-92 | no passages gives "No relevant passages found." without consulting the model; otherwise the reply to the answer prompt, unchanged |
| Embeddings.RetryDelay | lib/embeddings.ts:32 | the back-off is 2000 ms before the second attempt and 4000 ms before the third |
| Embeddings.RetryPolicy | lib/embeddings.ts:21-40 | at most 3 attempts; every attempt but the last threw a 429 and was followed by its back-off; the last attempt's vectors or error is the outcome, and an error is either not a 429 or the third one |
| Embeddings.BatchWithRetry | lib/embeddings.ts:17-41 | the loop's outcome, attempts and delays are those of the retry policy |
| Embeddings.RetryUsesOnlyItsCalls | lib/embeddings.ts:21-40 | the policy's outcome depends only on the requests it counts |
| Embeddings.BatchesCover | lib/embeddings.ts:47-48 | the batches are in order, cover every text exactly once, hold 1 to 20 texts each, and number ceil(n/20) |
| Embeddings.RetryDelaysNotPauses | lib/embeddings.ts:31-34 | a back-off is never the 500 ms pause |
| Embeddings.EmbedPauses | lib/embeddings.ts:52-54 | a run that embeds every batch pauses once between consecutive batches and never after the last: its delays are the first batch's back-off delays, then the 500 ms pause when another batch follows, then the delays of the remaining batches; back-off delays never equal the pause, so the pauses number one fewer than the batches |
| Embeddings.EmbedOneVectorPerText | lib/embeddings.ts:45-50 | when the service answers each batch with one vector per text, the run returns one vector per text |
| Embeddings.EmbedFailureIsLastCall | lib/embeddings.ts:49 | a failed run ends with the request that failed, and returns that request's error |
| Embeddings.EmbedUsesOnlyItsCalls | lib/embeddings.ts:47-55 | no request is sent after a failure: the run depends only on the requests it counts |
| Embeddings.EmbedBatchAt | lib/embeddings.ts:47-55 | one loop pass embeds the next batch, appends its vectors and records the pause unless it is the last batch |
| Embeddings.EmbedTexts | lib/embeddings.ts:43-58 | the loop's vectors, request count and delays are those of the batched specification |
| Embeddings.EmbedTextsRun | lib/embeddings.ts:43-58 | a missing key fails before any request; no texts means no request; a successful run pauses ceil(n/20) - 1 times and returns one vector per text |
| HybridRoute.OrDefault | app/api/search/hybrid/route.ts:19-21 | a missing limit and 0 both give the default; any other value is kept |
| HybridRoute.LabelsDistinct | app/api/search/hybrid/route.ts:67-95 | a stage's success label and failure label differ |
| HybridRoute.RerankStage | app/api/search/hybrid/route.ts:59-80 | the reranked passages, or the fused order cut to rN when reranking threw; the step label says which; a success records how many candidates went in and how many came back, a failure records its message |
| HybridRoute.AnswerStage | app/api/search/hybrid/route.ts:82-99 | the answer, or "" when generation threw; the step label says which; a success records no detail, a failure records its message |
| HybridRoute.Assemble | app/api/search/hybrid/route.ts:101-122 | the trace records intent, bK, vK and rN; the answer is absent when generation threw or replied ""; the timing mirrors the trace steps one to one, without details |
| HybridRoute.Trace | app/api/search/hybrid/route.ts:49-122 | the trace holds five steps in order: intent, retrieval, merge, rerank (ok or failed), answer (ok or failed), each with its stage's duration and detail: the intent name, the two lanes' result counts, the number of unique fused passages, the rerank counts or error, and the answer error if any |
| HybridRoute.LaterStages | app/api/search/hybrid/route.ts:49-122 | fusion takes exactly the two lanes' passages, the reranker sees only the first 20 fused passages, and the answer is generated from the passages returned |
| HybridRoute.Post | app/api/search/hybrid/route.ts:11-125 | a missing or empty docId or query gives the 400 reply and nothing else; a lane that throws fails the request; otherwise the result is assembled from the lanes' passages with the defaulted limits |
| HybridRoute.AssembledFromLanes | app/api/search/hybrid/route.ts:49-112 | whatever the model replies, at most rN passages come back, each the fused passage of a chunk a lane found, with at most its score changed |
| Bm25Route.KeptTerms | app/api/search/bm25/route.ts:23 | no term that survives this route's filter is a stop word |
| Bm25Route.KeptTermsAgree | app/api/search/bm25/route.ts:5-23 | this route's stop-word filter is the shared one |
| Bm25Route.SanitizerAgrees | app/api/search/bm25/route.ts:17-26 | this route's sanitiser gives the same output as the shared one for every query |
| Bm25Route.OperatorsAreStopWords | app/api/search/bm25/route.ts:5-25 | "courage AND lion" sanitises to `"courage" "lion"` |
| Bm25Route.SanitizedEmptyIff | app/api/search/bm25/route.ts:17-26 | the sanitised query is empty exactly when no term survives |
| Bm25Route.ScoredAll | app/api/search/bm25/route.ts:39-46 | one scored row per matched row |
| Bm25Route.Post | app/api/search/bm25/route.ts:28-49 | the reply is always ok, and an empty sanitised query gives no results |
| Bm25Route.EmptyQueryShortCircuit | app/api/search/bm25/route.ts:32-35 | results are empty exactly when no term survives or no row matches |
| Bm25Route.RowsAreMatches | app/api/search/bm25/route.ts:39-46 | every result's text is a matched row's text |
| Bm25Route.Ranking | app/api/search/bm25/route.ts:37-46 | min(10, rows) results, ascending by adjusted score; they are the best of a permutation of the scored rows, each a row with its bonus applied |

## Left out

- The user interface (`app/page.tsx`, `components/*`) is not part of this model.
- The storage layers are not part of this model: SQLite and FTS5 (`lib/db.ts`) and LanceDB (`lib/lancedb.ts`). Which rows match a query, and their raw `bm25()` values, are inputs.
- `internalVectorSearch` and `embedQuery` are not modelled; the vector lane's passages are an input. In the source, `searchVectors` returns only text and score (lib/lancedb.ts:57-60). Its hits therefore carry no chunkId at run time, and fusion would key them all alike. The model takes chunk ids as given.
- The other routes (`index`, `sample-doc`, `gemini`, `lancedb`) are not part of this model.
- Time is not modelled. `performance.now`, `Math.round` and `sleep` are absent: the rounded stage durations are an input, and the sleeps become a list of delays.
- `Promise.all` runs the two lanes concurrently; the model calls them one after the other. When both throw, the source reports whichever rejects first, while the model reports the BM25 error.
- `console.log` output is not modelled.
- Strings are sequences of characters. JavaScript lengths and offsets count UTF-16 code units, so they differ for text outside the Basic Multilingual Plane.
- `Passage.highlights` (lib/types.ts:20), `ChunkMeta`, `SearchSettings` and `DEFAULT_SETTINGS` are not modelled: no core operation reads them.
- Chunk.ChunkText: the default arguments (1500 and 0) are not modelled; callers pass both values. The same holds for `chunkByChapter`'s defaults (3000 and 200).
- Chunk.ChunkByChapterSound: it does not state that sub-chunks of an oversized chapter are non-blank. The source does not promise that either: only whole chapters are tested with `trim()`.
- Rerank.RerankPassages: the model's name setting (`GEMINI_MODEL`) and the missing-key check in `getModel` are folded into the `generate` parameter's error.
- Rerank.RerankPassages: reply entries are (integer index, real score). The model does not cover a parsed value that is not an array, an index that is not an integer, or a score that is not a number. In the source these make `filter` throw, or yield a passage without fields.
- StableSort.SortDescCorrect: a JavaScript comparator over floating-point differences is modelled as exact real comparison.
- SearchUtils.Bm25Ranking: SQLite does not fix the order of rows with equal scores. The model keeps the rows' input order there.
- HybridRoute.Post: a request field of the wrong JSON type (a number as the query, say) is outside the model. The fields are optional strings and integers.
- Bm25Route.Post: `docId` is not checked by the source and only selects the matched rows, so it is not a parameter. A body without a string query makes the source throw; the model takes the query as a string.
- Embeddings.EmbedTexts: vectors are sequences of reals and are not inspected. `getEmbeddingModel`'s failure on a missing key is the `MISSING_KEY` error, and it happens before any request, even for no texts.
