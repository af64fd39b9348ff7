/** app/api/search/hybrid/route.ts: the hybrid search endpoint. It validates
    the request, then runs five stages in a fixed order, recording each in
    the trace: intent classification, the two retrieval lanes, Reciprocal
    Rank Fusion, LLM reranking (falling back to fused order when it throws)
    and answer generation (leaving the answer out when it throws).

    The lanes are parameters from (docId, query, topK) to their passages or
    the message of what they throw; the language model and `JSON.parse` are
    the parameters of lib/rerank.ts; the rounded stage durations the clock
    would give are an input. */
module HybridRoute {
  import opened Types
  import opened JsText
  import SearchUtils
  import Rerank
  import StableSort

  /** The JSON body: each field may be missing. */
  datatype SearchRequest = SearchRequest(docId: Option<string>, query: Option<string>,
                                         bm25TopK: Option<int>, vectorTopK: Option<int>, rerankTopN: Option<int>)

  /** `Math.round` of each stage's measured duration, and of the whole. */
  datatype StageTimes = StageTimes(intentMs: int, retrievalMs: int, mergeMs: int, rerankMs: int, answerMs: int,
                                   totalMs: int)

  /** lib/types.ts:33-38, with `meta` holding the trace. */
  datatype SearchLaneResult = SearchLaneResult(passages: seq<Passage>, answer: Option<string>,
                                               timing: TimingBreakdown, trace: AgentTrace)

  /** A 400 reply, a thrown error (a lane failed), or the result. */
  datatype Response = BadRequest(error: string) | Failed(message: string) | Success(result: SearchLaneResult)

  type Lane = (string, string, int) -> Result<seq<Passage>, string>

  const MISSING_FIELDS: string := "Missing docId/query"
  const DEFAULT_BM25_TOP_K: int := 10
  const DEFAULT_VECTOR_TOP_K: int := 10
  const DEFAULT_RERANK_TOP_N: int := 5
  /** app/api/search/hybrid/route.ts:64 */
  const RERANK_CAP: int := 20

  const INTENT_LABEL: string := "Classify intent"
  const RETRIEVAL_LABEL: string := "Parallel retrieval (BM25 + Vector)"
  const MERGE_LABEL: string := "Merge + RRF deduplicate"
  const RERANK_LABEL: string := "Gemini rerank"
  const RERANK_FAILED_LABEL: string := "Gemini rerank (failed, using RRF order)"
  const ANSWER_LABEL: string := "Generate answer"
  const ANSWER_FAILED_LABEL: string := "Generate answer (failed)"

  /** `n || d` for a number field: a missing value and 0 both give d. */
  function OrDefault(n: Option<int>, d: int): (r: int)
    ensures n.None? || n == Some(0) ==> r == d
    ensures n.Some? && n.value != 0 ==> r == n.value
  {
    if n.Some? && n.value != 0 then n.value else d
  }

  /** `timing.steps`: each trace step without its detail. */
  function TimingOf(s: AgentTraceStep): TimingStep
  {
    TimingStep(s.name, s.durationMs)
  }

  /** The labels of a stage that succeeded and of one that failed differ. */
  lemma LabelsDistinct()
    ensures RERANK_LABEL != RERANK_FAILED_LABEL && ANSWER_LABEL != ANSWER_FAILED_LABEL
  {
    assert |RERANK_LABEL| != |RERANK_FAILED_LABEL| && |ANSWER_LABEL| != |ANSWER_FAILED_LABEL|;
  }

  /** app/api/search/hybrid/route.ts:33 */
  function IntentDetail(intent: QueryIntent): string
  {
    "Intent: " + IntentName(intent)
  }

  /** app/api/search/hybrid/route.ts:46 */
  function RetrievalDetail(bm25Count: nat, vectorCount: nat): string
  {
    "BM25: " + NatToString(bm25Count) + " results, Vector: " + NatToString(vectorCount) + " results"
  }

  /** app/api/search/hybrid/route.ts:56 */
  function MergeDetail(unique: nat): string
  {
    NatToString(unique) + " unique passages"
  }

  /** app/api/search/hybrid/route.ts:70 */
  function RerankDetail(candidates: nat, kept: nat): string
  {
    "Reranked " + NatToString(candidates) + " \U{2192} top " + NatToString(kept)
  }

  /** app/api/search/hybrid/route.ts:59-80, given what `rerankPassages`
      did with the first RERANK_CAP fused passages: its passages, or, when it
      threw, the fused order cut to rN, with the failure and its message
      recorded. */
  method RerankStage(merged: seq<Passage>, rN: int, candidates: nat, out: Result<seq<Passage>, string>, ms: int)
    returns (reranked: seq<Passage>, step: AgentTraceStep)
    ensures reranked == if out.Ok? then out.value else Prefix(merged, rN)
    ensures step.durationMs == ms
    ensures step.name == RERANK_LABEL <==> out.Ok?
    ensures step.name == RERANK_FAILED_LABEL <==> out.Err?
    ensures out.Err? ==> step.detail == Some(out.error)
    ensures out.Ok? ==> step.detail == Some(RerankDetail(candidates, |out.value|))
  {
    LabelsDistinct();
    reranked := merged;
    match out
    case Ok(ps) =>
      reranked := ps;
      step := AgentTraceStep(RERANK_LABEL, ms, Some(RerankDetail(candidates, |reranked|)));
    case Err(e) =>
      step := AgentTraceStep(RERANK_FAILED_LABEL, ms, Some(e));
      reranked := Prefix(merged, rN);
  }

  /** app/api/search/hybrid/route.ts:82-99, given what
      `generateAnswerFromPassages` did: its reply, or, when it threw, ""
      with the failure and its message recorded. */
  method AnswerStage(out: Result<string, string>, ms: int) returns (answer: string, step: AgentTraceStep)
    ensures answer == if out.Ok? then out.value else ""
    ensures step.durationMs == ms
    ensures step.name == ANSWER_LABEL <==> out.Ok?
    ensures step.name == ANSWER_FAILED_LABEL <==> out.Err?
    ensures out.Err? ==> step.detail == Some(out.error)
    ensures out.Ok? ==> step.detail == None
  {
    LabelsDistinct();
    answer := "";
    match out
    case Ok(a) =>
      answer := a;
      step := AgentTraceStep(ANSWER_LABEL, ms, None);
    case Err(e) =>
      step := AgentTraceStep(ANSWER_FAILED_LABEL, ms, Some(e));
  }

  /** The result a request assembles from the stages' outcomes: the trace
      records the intent and the limits and holds five steps in a fixed
      order, each with its stage's duration and detail (a successful answer
      step has none); the passages are the reranked ones, or the fused order cut to
      rN when reranking threw; the answer is absent when generation threw
      or replied ""; the timing mirrors the trace step for step without
      details. */
  predicate AssembledFrom(r: SearchLaneResult, intent: QueryIntent, bK: int, vK: int, rN: int,
                          bm25Count: nat, vectorCount: nat,
                          merged: seq<Passage>, reranked: Result<seq<Passage>, string>,
                          answer: Result<string, string>, clock: StageTimes)
  {
    var steps := r.trace.steps;
    && r.trace.intent == intent
    && r.trace.bm25TopK == bK && r.trace.vectorTopK == vK && r.trace.rerankTopN == rN
    && |steps| == 5
    && steps[0].name == INTENT_LABEL && steps[1].name == RETRIEVAL_LABEL && steps[2].name == MERGE_LABEL
    && (steps[3].name == RERANK_LABEL <==> reranked.Ok?)
    && (steps[3].name == RERANK_FAILED_LABEL <==> reranked.Err?)
    && steps[0].detail == Some(IntentDetail(intent))
    && steps[1].detail == Some(RetrievalDetail(bm25Count, vectorCount))
    && steps[2].detail == Some(MergeDetail(|merged|))
    && (reranked.Err? ==> steps[3].detail == Some(reranked.error))
    && (reranked.Ok? ==> steps[3].detail == Some(RerankDetail(|Prefix(merged, RERANK_CAP)|, |reranked.value|)))
    && (steps[4].name == ANSWER_LABEL <==> answer.Ok?)
    && (steps[4].name == ANSWER_FAILED_LABEL <==> answer.Err?)
    && (answer.Err? ==> steps[4].detail == Some(answer.error))
    && (answer.Ok? ==> steps[4].detail == None)
    && steps[0].durationMs == clock.intentMs && steps[1].durationMs == clock.retrievalMs
    && steps[2].durationMs == clock.mergeMs && steps[3].durationMs == clock.rerankMs
    && steps[4].durationMs == clock.answerMs
    && r.passages == (if reranked.Ok? then reranked.value else Prefix(merged, rN))
    && (r.answer.Some? <==> answer.Ok? && answer.value != "")
    && (r.answer.Some? ==> r.answer.value == answer.value)
    && r.timing.totalMs == clock.totalMs
    && r.timing.steps == StableSort.Map(steps, TimingOf)
  }

  /** What a successful request returns, given the two lanes' passages
      (lines 49-121): fusion takes exactly the two lanes' passages, the
      reranker sees at most RERANK_CAP of the fused passages, and the answer
      is generated from the passages returned. */
  predicate Assembled(r: SearchLaneResult, query: string, bK: int, vK: int, rN: int,
                      bm25: seq<Passage>, vector: seq<Passage>, generate: string -> Result<string, string>,
                      parse: string -> Option<seq<Rerank.ScoreEntry>>, clock: StageTimes)
  {
    var merged := SearchUtils.Fused(bm25, vector);
    var reranked := Rerank.RerankPassages(query, Prefix(merged, RERANK_CAP), rN, generate, parse);
    var passages := if reranked.Ok? then reranked.value else Prefix(merged, rN);
    AssembledFrom(r, SearchUtils.ClassifyIntent(query), bK, vK, rN, |bm25|, |vector|, merged, reranked,
                  Rerank.GenerateAnswer(query, passages, generate), clock)
  }

  /** app/api/search/hybrid/route.ts:101-121 */
  method Assemble(intent: QueryIntent, bK: int, vK: int, rN: int, bm25Count: nat, vectorCount: nat,
                  merged: seq<Passage>,
                  reranked: Result<seq<Passage>, string>, answerOut: Result<string, string>, clock: StageTimes,
                  traceSteps: seq<AgentTraceStep>, passages: seq<Passage>, answer: string)
    returns (result: SearchLaneResult)
    requires |traceSteps| == 5
    requires traceSteps[0].name == INTENT_LABEL && traceSteps[0].durationMs == clock.intentMs
    requires traceSteps[1].name == RETRIEVAL_LABEL && traceSteps[1].durationMs == clock.retrievalMs
    requires traceSteps[2].name == MERGE_LABEL && traceSteps[2].durationMs == clock.mergeMs
    requires traceSteps[0].detail == Some(IntentDetail(intent))
    requires traceSteps[1].detail == Some(RetrievalDetail(bm25Count, vectorCount))
    requires traceSteps[2].detail == Some(MergeDetail(|merged|))
    requires reranked.Ok? ==> traceSteps[3].detail == Some(RerankDetail(|Prefix(merged, RERANK_CAP)|, |reranked.value|))
    requires answerOut.Ok? ==> traceSteps[4].detail == None
    requires traceSteps[3].durationMs == clock.rerankMs && traceSteps[4].durationMs == clock.answerMs
    requires traceSteps[3].name == RERANK_LABEL <==> reranked.Ok?
    requires traceSteps[3].name == RERANK_FAILED_LABEL <==> reranked.Err?
    requires reranked.Err? ==> traceSteps[3].detail == Some(reranked.error)
    requires traceSteps[4].name == ANSWER_LABEL <==> answerOut.Ok?
    requires traceSteps[4].name == ANSWER_FAILED_LABEL <==> answerOut.Err?
    requires answerOut.Err? ==> traceSteps[4].detail == Some(answerOut.error)
    requires passages == if reranked.Ok? then reranked.value else Prefix(merged, rN)
    requires answer == if answerOut.Ok? then answerOut.value else ""
    ensures AssembledFrom(result, intent, bK, vK, rN, bm25Count, vectorCount, merged, reranked, answerOut, clock)
  {
    var trace := AgentTrace(intent, bK, vK, rN, traceSteps);
    result := SearchLaneResult(passages, if answer != "" then Some(answer) else None,
                               TimingBreakdown(clock.totalMs, StableSort.Map(traceSteps, TimingOf)), trace);
  }

  /** app/api/search/hybrid/route.ts:49-121: the steps of fusion,
      reranking and answer generation traced after the first two, given
      what each stage produced, and the result built from them. */
  method Trace(intent: QueryIntent, bK: int, vK: int, rN: int, bm25Count: nat, vectorCount: nat,
               merged: seq<Passage>,
               rerankOut: Result<seq<Passage>, string>, answerOut: Result<string, string>, clock: StageTimes,
               intentStep: AgentTraceStep, retrievalStep: AgentTraceStep)
    returns (result: SearchLaneResult)
    requires intentStep.name == INTENT_LABEL && intentStep.durationMs == clock.intentMs
    requires retrievalStep.name == RETRIEVAL_LABEL && retrievalStep.durationMs == clock.retrievalMs
    requires intentStep.detail == Some(IntentDetail(intent))
    requires retrievalStep.detail == Some(RetrievalDetail(bm25Count, vectorCount))
    ensures AssembledFrom(result, intent, bK, vK, rN, bm25Count, vectorCount, merged, rerankOut, answerOut, clock)
  {
    var traceSteps := [intentStep, retrievalStep];

    // Step 3: fusion
    var mergeStep := AgentTraceStep(MERGE_LABEL, clock.mergeMs, Some(MergeDetail(|merged|)));
    traceSteps := traceSteps + [mergeStep];

    // Step 4: rerank, or fall back to fused order
    var toRerank := Prefix(merged, RERANK_CAP);
    var reranked, rerankStep := RerankStage(merged, rN, |toRerank|, rerankOut, clock.rerankMs);
    traceSteps := traceSteps + [rerankStep];

    // Step 5: answer
    var answer, answerStep := AnswerStage(answerOut, clock.answerMs);
    traceSteps := traceSteps + [answerStep];

    result := Assemble(intent, bK, vK, rN, bm25Count, vectorCount, merged, rerankOut, answerOut, clock, traceSteps, reranked, answer);
  }

  /** app/api/search/hybrid/route.ts:49-121: fusion, reranking and answer
      generation after the two steps already traced, then the result. */
  method LaterStages(query: string, intent: QueryIntent, bK: int, vK: int, rN: int,
                     bm25Results: seq<Passage>, vectorResults: seq<Passage>,
                     generate: string -> Result<string, string>, parse: string -> Option<seq<Rerank.ScoreEntry>>,
                     clock: StageTimes, intentStep: AgentTraceStep, retrievalStep: AgentTraceStep)
    returns (result: SearchLaneResult)
    requires intent == SearchUtils.ClassifyIntent(query)
    requires intentStep.name == INTENT_LABEL && intentStep.durationMs == clock.intentMs
    requires retrievalStep.name == RETRIEVAL_LABEL && retrievalStep.durationMs == clock.retrievalMs
    requires intentStep.detail == Some(IntentDetail(intent))
    requires retrievalStep.detail == Some(RetrievalDetail(|bm25Results|, |vectorResults|))
    ensures Assembled(result, query, bK, vK, rN, bm25Results, vectorResults, generate, parse, clock)
  {
    var merged := SearchUtils.MergeAndDeduplicate(bm25Results, vectorResults);
    var rerankOut := Rerank.RerankPassages(query, Prefix(merged, RERANK_CAP), rN, generate, parse);
    var reranked := if rerankOut.Ok? then rerankOut.value else Prefix(merged, rN);
    var answerOut := Rerank.GenerateAnswer(query, reranked, generate);
    result := Trace(intent, bK, vK, rN, |bm25Results|, |vectorResults|, merged, rerankOut, answerOut, clock, intentStep, retrievalStep);
  }

  /** app/api/search/hybrid/route.ts:11-125: a request without docId or
      query is refused before any stage runs; the lanes run with the
      defaulted limits and a lane that throws fails the request; otherwise
      the result is assembled from the lanes' passages. */
  method Post(req: SearchRequest, bm25Lane: Lane, vectorLane: Lane,
              generate: string -> Result<string, string>, parse: string -> Option<seq<Rerank.ScoreEntry>>,
              clock: StageTimes)
    returns (resp: Response)
    ensures !IsTruthy(req.docId) || !IsTruthy(req.query) <==> resp == BadRequest(MISSING_FIELDS)
    ensures IsTruthy(req.docId) && IsTruthy(req.query) ==>
              var docId, query := req.docId.value, req.query.value;
              var bK := OrDefault(req.bm25TopK, DEFAULT_BM25_TOP_K);
              var vK := OrDefault(req.vectorTopK, DEFAULT_VECTOR_TOP_K);
              var rN := OrDefault(req.rerankTopN, DEFAULT_RERANK_TOP_N);
              var b, v := bm25Lane(docId, query, bK), vectorLane(docId, query, vK);
              && (b.Err? ==> resp == Failed(b.error))
              && (b.Ok? && v.Err? ==> resp == Failed(v.error))
              && (b.Ok? && v.Ok? ==> resp.Success? && Assembled(resp.result, query, bK, vK, rN, b.value, v.value,
                                                                generate, parse, clock))
  {
    if !IsTruthy(req.docId) || !IsTruthy(req.query) {
      return BadRequest(MISSING_FIELDS);
    }
    var docId, query := req.docId.value, req.query.value;

    var bK := OrDefault(req.bm25TopK, DEFAULT_BM25_TOP_K);
    var vK := OrDefault(req.vectorTopK, DEFAULT_VECTOR_TOP_K);
    var rN := OrDefault(req.rerankTopN, DEFAULT_RERANK_TOP_N);

    // Step 1: classify intent
    var intent := SearchUtils.ClassifyIntent(query);
    var intentStep := AgentTraceStep(INTENT_LABEL, clock.intentMs, Some(IntentDetail(intent)));

    // Step 2: both lanes
    var bm25Results := bm25Lane(docId, query, bK);
    var vectorResults := vectorLane(docId, query, vK);
    if bm25Results.Err? {
      return Failed(bm25Results.error);
    }
    if vectorResults.Err? {
      return Failed(vectorResults.error);
    }
    var retrievalStep := AgentTraceStep(RETRIEVAL_LABEL, clock.retrievalMs,
      Some(RetrievalDetail(|bm25Results.value|, |vectorResults.value|)));

    var result := LaterStages(query, intent, bK, vK, rN, bm25Results.value, vectorResults.value,
                              generate, parse, clock, intentStep, retrievalStep);
    return Success(result);
  }
  /** Whatever the reranker does, a successful request returns at most rN
      passages when rN >= 0, and each is the fused passage of a chunk one of
      the lanes found, with at most its score changed. */
  lemma AssembledFromLanes(r: SearchLaneResult, query: string, bK: int, vK: int, rN: int,
                           bm25: seq<Passage>, vector: seq<Passage>, generate: string -> Result<string, string>,
                           parse: string -> Option<seq<Rerank.ScoreEntry>>, clock: StageTimes, k: nat)
    requires Assembled(r, query, bK, vK, rN, bm25, vector, generate, parse, clock)
    requires k < |r.passages|
    ensures rN >= 0 ==> |r.passages| <= rN
    ensures var p := r.passages[k];
            SearchUtils.HasId(bm25 + vector, p.chunkId)
            && p == SearchUtils.FusedPassage(bm25, vector, p.chunkId).(score := p.score)
  {
    var merged := SearchUtils.Fused(bm25, vector);
    var candidates := Prefix(merged, RERANK_CAP);
    var reranked := Rerank.RerankPassages(query, candidates, rN, generate, parse);
    PrefixLength(merged, RERANK_CAP);
    var j: nat;
    if reranked.Ok? {
      Rerank.RerankedFromCandidates(query, candidates, rN, generate, parse, reranked);
      j :| j < |candidates| && r.passages[k] == candidates[j].(score := r.passages[k].score);
      assert candidates[j] == merged[j];
    } else {
      PrefixLength(merged, rN);
      j := k;
      assert r.passages[k] == merged[j];
    }
    SearchUtils.FusedEntry(bm25, vector, j);
  }
}
