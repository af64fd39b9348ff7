/** Shapes shared by the retrieval pipeline (lib/types.ts), plus the
    Option/Result wrappers used for optional fields and thrown errors. */
module Types {

  /** An optional value; None stands for a JavaScript `undefined` or `null`. */
  datatype Option<+T> = None | Some(value: T)

  /** The outcome of a call that may throw: Err carries the error's message. */
  datatype Result<+T, +E> = Ok(value: T) | Err(error: E)

  /** A retrieval result (lib/types.ts:15-21). Scores are exact rationals. */
  datatype Passage = Passage(chunkId: int, text: string, score: real, section: Option<string>)

  /** A chunk as produced by the chunker (lib/types.ts:9-13). */
  datatype ChunkWithMeta = ChunkWithMeta(text: string, section: Option<string>, charOffset: int)

  /** lib/types.ts:60 */
  datatype QueryIntent = Quote | Boolean | Conceptual

  /** The string the source uses for each intent. */
  function IntentName(i: QueryIntent): string
  {
    match i
    case Quote => "quote"
    case Boolean => "boolean"
    case Conceptual => "conceptual"
  }

  /** lib/types.ts:62-66 (`label` is a Dafny keyword, so the field is `name`) */
  datatype AgentTraceStep = AgentTraceStep(name: string, durationMs: int, detail: Option<string>)

  /** lib/types.ts:23-26 */
  datatype TimingStep = TimingStep(name: string, durationMs: int)

  /** lib/types.ts:28-31 */
  datatype TimingBreakdown = TimingBreakdown(totalMs: int, steps: seq<TimingStep>)

  /** lib/types.ts:68-74 */
  datatype AgentTrace = AgentTrace(intent: QueryIntent, bm25TopK: int, vectorTopK: int, rerankTopN: int,
                                   steps: seq<AgentTraceStep>)

  /** JavaScript truthiness of an optional string: undefined, null and "" are falsy. */
  predicate IsTruthy(s: Option<string>)
  {
    s.Some? && s.value != ""
  }
}
