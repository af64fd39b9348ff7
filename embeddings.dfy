/** lib/embeddings.ts: batched embedding with a retry policy for rate
    limiting. The embedding service is a parameter `call`: `call(n, batch)`
    is the outcome of the n-th request the process sends (numbered from 0),
    which carries `batch`. Sleeping is not modelled as time: every delay the
    code would sleep is recorded, in order, in a `delays` output. */
module Embeddings {
  import opened Types
  import opened JsText

  /** lib/embeddings.ts:3 */
  const BATCH_SIZE: nat := 20
  /** lib/embeddings.ts:4 */
  const MAX_RETRIES: nat := 3
  /** lib/embeddings.ts:53 */
  const PAUSE_MS: nat := 500

  type Vector = seq<real>

  /** What a request may throw: an HTTP status and a message, either of
      which may be missing. */
  datatype EmbedError = EmbedError(status: Option<int>, message: Option<string>)

  /** The outcome of one `batchEmbedContents` request: the `values` of each
      returned embedding, or the error it throws. */
  datatype Outcome = Embedded(vectors: seq<Vector>) | Threw(error: EmbedError)

  /** lib/embeddings.ts:8 */
  const MISSING_KEY: EmbedError := EmbedError(None, Some("Missing GEMINI_API_KEY"))

  /** lib/embeddings.ts:30: a rate-limit error, by status or by message. */
  predicate Is429(e: EmbedError)
  {
    e.status == Some(429) || (e.message.Some? && Contains(e.message.value, "429"))
  }

  function Pow2(n: nat): (r: nat)
    ensures r >= 1
  {
    if n == 0 then 1 else 2 * Pow2(n - 1)
  }

  /** lib/embeddings.ts:32: the back-off before retry number attempt + 1. */
  function RetryDelay(attempt: nat): (ms: nat)
    requires attempt < MAX_RETRIES - 1
    ensures attempt == 0 ==> ms == 2000
    ensures attempt == 1 ==> ms == 4000
  {
    Pow2(attempt + 1) * 1000
  }

  // =====================================================================
  // batchWithRetry

  /** A batch's outcome, how many requests it took, and the back-off delays
      slept between them. */
  datatype BatchRun = BatchRun(result: Result<seq<Vector>, EmbedError>, attempts: nat, delays: seq<nat>)

  /** The retry policy from a given attempt on, for the batch whose first
      request is number `start`. */
  function RetryFrom(call: (nat, seq<string>) -> Outcome, start: nat, batch: seq<string>, attempt: nat): BatchRun
    requires attempt < MAX_RETRIES
    decreases MAX_RETRIES - attempt
  {
    match call(start + attempt, batch)
    case Embedded(vectors) => BatchRun(Ok(vectors), attempt + 1, [])
    case Threw(e) =>
      if Is429(e) && attempt < MAX_RETRIES - 1 then
        var rest := RetryFrom(call, start, batch, attempt + 1);
        BatchRun(rest.result, rest.attempts, [RetryDelay(attempt)] + rest.delays)
      else BatchRun(Err(e), attempt + 1, [])
  }

  /** The retry policy: the requests made are numbered start+a, ...,
      start+attempts-1 and there are at most MAX_RETRIES of them in all;
      every one but the last threw a rate-limit error and was followed by a
      back-off of 2^(n+1) seconds; the last one decides the outcome: its
      vectors when it succeeded, otherwise its error, which is either not a
      rate-limit error or the one of the final allowed attempt. */
  lemma {:induction false} RetryPolicy(call: (nat, seq<string>) -> Outcome, start: nat, batch: seq<string>,
                                       a: nat, run: BatchRun)
    requires a < MAX_RETRIES && run == RetryFrom(call, start, batch, a)
    ensures a + 1 <= run.attempts <= MAX_RETRIES
    ensures |run.delays| == run.attempts - 1 - a
    ensures forall k :: 0 <= k < |run.delays| ==> a + k < MAX_RETRIES - 1 && run.delays[k] == RetryDelay(a + k)
    ensures forall n :: start + a <= n < start + run.attempts - 1 ==> call(n, batch).Threw? && Is429(call(n, batch).error)
    ensures var last := call(start + run.attempts - 1, batch);
            && (run.result.Ok? <==> last.Embedded?)
            && (run.result.Ok? ==> run.result.value == last.vectors)
            && (run.result.Err? ==> last == Threw(run.result.error)
                                    && (!Is429(run.result.error) || run.attempts == MAX_RETRIES))
    decreases MAX_RETRIES - a
  {
    var first := call(start + a, batch);
    if first.Threw? && Is429(first.error) && a < MAX_RETRIES - 1 {
      var rest := RetryFrom(call, start, batch, a + 1);
      RetryPolicy(call, start, batch, a + 1, rest);
      assert run.delays == [RetryDelay(a)] + rest.delays;
    }
  }

  /** lib/embeddings.ts:17-41 */
  method BatchWithRetry(call: (nat, seq<string>) -> Outcome, start: nat, batch: seq<string>)
    returns (result: Result<seq<Vector>, EmbedError>, attempts: nat, delays: seq<nat>)
    ensures BatchRun(result, attempts, delays) == RetryFrom(call, start, batch, 0)
  {
    delays := [];
    var attempt := 0;
    while attempt < MAX_RETRIES
      invariant attempt < MAX_RETRIES
      invariant var rest := RetryFrom(call, start, batch, attempt);
                RetryFrom(call, start, batch, 0) == BatchRun(rest.result, rest.attempts, delays + rest.delays)
      decreases MAX_RETRIES - attempt
    {
      match call(start + attempt, batch)
      case Embedded(vectors) =>
        result, attempts := Ok(vectors), attempt + 1;
        return;
      case Threw(e) =>
        if Is429(e) && attempt < MAX_RETRIES - 1 {
          ghost var rest := RetryFrom(call, start, batch, attempt + 1);
          assert delays + ([RetryDelay(attempt)] + rest.delays) == (delays + [RetryDelay(attempt)]) + rest.delays;
          delays := delays + [RetryDelay(attempt)];
          attempt := attempt + 1;
        } else {
          result, attempts := Err(e), attempt + 1;
          return;
        }
    }
    assert false;
  }

  // =====================================================================
  // embedTexts

  /** lib/embeddings.ts:47-48: consecutive slices of BATCH_SIZE texts, the
      last one possibly shorter. */
  function Batches(texts: seq<string>): seq<seq<string>>
    decreases |texts|
  {
    if texts == [] then []
    else
      var n := if |texts| <= BATCH_SIZE then |texts| else BATCH_SIZE;
      [texts[..n]] + Batches(texts[n..])
  }

  function Flatten<T>(xs: seq<seq<T>>): seq<T>
  {
    if xs == [] then [] else xs[0] + Flatten(xs[1..])
  }

  /** The batches are in order, cover every text exactly once, hold between
      1 and BATCH_SIZE texts each, and there are ceil(|texts| / BATCH_SIZE)
      of them. */
  lemma {:induction false} BatchesCover(texts: seq<string>)
    ensures Flatten(Batches(texts)) == texts
    ensures forall k :: 0 <= k < |Batches(texts)| ==> 1 <= |Batches(texts)[k]| <= BATCH_SIZE
    ensures |Batches(texts)| == (|texts| + BATCH_SIZE - 1) / BATCH_SIZE
    decreases |texts|
  {
    if texts != [] {
      var n := if |texts| <= BATCH_SIZE then |texts| else BATCH_SIZE;
      BatchesCover(texts[n..]);
      assert texts == texts[..n] + texts[n..];
      assert Batches(texts)[1..] == Batches(texts[n..]);
    }
  }

  /** The smaller of i and len. */
  function Clamp(i: nat, len: nat): nat
  {
    if i <= len then i else len
  }

  /** The vectors, request count and delays of a whole run. */
  datatype EmbedRun = EmbedRun(result: Result<seq<Vector>, EmbedError>, calls: nat, delays: seq<nat>)

  /** A run that follows batches already embedded into `done` with `calls`
      requests and `delays` slept. */
  function After(done: seq<Vector>, calls: nat, delays: seq<nat>, rest: EmbedRun): EmbedRun
  {
    EmbedRun(match rest.result
             case Ok(vs) => Ok(done + vs)
             case Err(e) => Err(e),
             calls + rest.calls, delays + rest.delays)
  }

  /** Embeds the given batches in order, their first request numbered
      `start`; the first batch that fails ends the run with its error, and
      a pause follows every batch but the last. */
  function EmbedBatches(call: (nat, seq<string>) -> Outcome, start: nat, batches: seq<seq<string>>): EmbedRun
    decreases |batches|
  {
    if batches == [] then EmbedRun(Ok([]), 0, [])
    else
      var run := RetryFrom(call, start, batches[0], 0);
      match run.result
      case Err(e) => EmbedRun(Err(e), run.attempts, run.delays)
      case Ok(vs) =>
        var pause := if |batches| > 1 then [PAUSE_MS] else [];
        After(vs, run.attempts, run.delays + pause, EmbedBatches(call, start + run.attempts, batches[1..]))
  }

  /** lib/embeddings.ts:43-58: a missing API key fails before any request. */
  function EmbedSpec(call: (nat, seq<string>) -> Outcome, apiKey: Option<string>, texts: seq<string>): EmbedRun
  {
    if !IsTruthy(apiKey) then EmbedRun(Err(MISSING_KEY), 0, [])
    else EmbedBatches(call, 0, Batches(texts))
  }

  lemma AfterAfter(d1: seq<Vector>, c1: nat, w1: seq<nat>, d2: seq<Vector>, c2: nat, w2: seq<nat>, r: EmbedRun)
    ensures After(d1, c1, w1, After(d2, c2, w2, r)) == After(d1 + d2, c1 + c2, w1 + w2, r)
  {
    assert w1 + (w2 + r.delays) == (w1 + w2) + r.delays;
    if r.result.Ok? {
      assert d1 + (d2 + r.result.value) == (d1 + d2) + r.result.value;
    }
  }

  /** One pass of the batching loop: the batch starting at text i is sent,
      and the run of the remaining texts picks up after it. */
  lemma BatchStep(call: (nat, seq<string>) -> Outcome, texts: seq<string>, i: nat, calls: nat,
                  batch: seq<string>, run: BatchRun)
    requires i < |texts| && batch == Slice(texts, i, i + BATCH_SIZE)
    requires run == RetryFrom(call, calls, batch, 0)
    ensures var next := if i + BATCH_SIZE <= |texts| then i + BATCH_SIZE else |texts|;
            var pause := if i + BATCH_SIZE < |texts| then [PAUSE_MS] else [];
            EmbedBatches(call, calls, Batches(texts[i..])) ==
              match run.result
              case Err(e) => EmbedRun(Err(e), run.attempts, run.delays)
              case Ok(vs) => After(vs, run.attempts, run.delays + pause,
                                   EmbedBatches(call, calls + run.attempts, Batches(texts[next..])))
  {
    SliceInRange(texts, i, BATCH_SIZE);
    var rest := texts[i..];
    var n := if |rest| <= BATCH_SIZE then |rest| else BATCH_SIZE;
    assert rest[..n] == batch;
    assert rest[n..] == texts[i + n..];
    BatchesCover(rest[n..]);
    assert |Batches(rest)| > 1 <==> i + BATCH_SIZE < |texts|;
  }

  /** The loop invariant of embedTexts survives a batch that succeeds. */
  lemma EmbedStepOk(call: (nat, seq<string>) -> Outcome, texts: seq<string>, i: nat, spec: EmbedRun,
                    all: seq<Vector>, calls: nat, delays: seq<nat>, batch: seq<string>, run: BatchRun,
                    pause: seq<nat>, next: nat)
    requires i < |texts| && batch == Slice(texts, i, i + BATCH_SIZE)
    requires spec == After(all, calls, delays, EmbedBatches(call, calls, Batches(texts[i..])))
    requires run == RetryFrom(call, calls, batch, 0) && run.result.Ok?
    requires pause == (if i + BATCH_SIZE < |texts| then [PAUSE_MS] else [])
    requires next == Clamp(i + BATCH_SIZE, |texts|)
    ensures spec == After(all + run.result.value, calls + run.attempts, delays + (run.delays + pause),
                          EmbedBatches(call, calls + run.attempts, Batches(texts[next..])))
  {
    BatchStep(call, texts, i, calls, batch, run);
    AfterAfter(all, calls, delays, run.result.value, run.attempts, run.delays + pause,
               EmbedBatches(call, calls + run.attempts, Batches(texts[next..])));
  }

  /** A batch that fails ends embedTexts with its error. */
  lemma EmbedStepErr(call: (nat, seq<string>) -> Outcome, texts: seq<string>, i: nat, spec: EmbedRun,
                     all: seq<Vector>, calls: nat, delays: seq<nat>, batch: seq<string>, run: BatchRun)
    requires i < |texts| && batch == Slice(texts, i, i + BATCH_SIZE)
    requires spec == After(all, calls, delays, EmbedBatches(call, calls, Batches(texts[i..])))
    requires run == RetryFrom(call, calls, batch, 0) && run.result.Err?
    ensures spec == EmbedRun(Err(run.result.error), calls + run.attempts, delays + run.delays)
  {
    BatchStep(call, texts, i, calls, batch, run);
  }

  /** Back-off delays are never the 500 ms pause. */
  lemma RetryDelaysNotPauses(call: (nat, seq<string>) -> Outcome, start: nat, batch: seq<string>, run: BatchRun)
    requires run == RetryFrom(call, start, batch, 0)
    ensures multiset(run.delays)[PAUSE_MS] == 0
  {
    RetryPolicy(call, start, batch, 0, run);
  }

  /** One step of a run that embeds every batch: the first batch and the
      rest both succeed, and the delays are the first batch's, the pause
      when a batch follows, then the rest's. */
  lemma EmbedSplit(call: (nat, seq<string>) -> Outcome, start: nat,
                   batches: seq<seq<string>>, run: EmbedRun, first: BatchRun, rest: EmbedRun)
    requires run == EmbedBatches(call, start, batches) && run.result.Ok? && batches != []
    requires first == RetryFrom(call, start, batches[0], 0)
    requires rest == EmbedBatches(call, start + first.attempts, batches[1..])
    ensures first.result.Ok? && rest.result.Ok?
    ensures run.delays == first.delays + (if |batches| > 1 then [PAUSE_MS] else []) + rest.delays
  {
  }

  /** A run that embeds every batch pauses exactly once between two
      consecutive batches, and never after the last: the delays of the
      first batch's run come first, then the pause when a batch follows,
      then the delays of the remaining batches' run. */
  lemma {:induction false} EmbedPauses(call: (nat, seq<string>) -> Outcome, start: nat,
                                       batches: seq<seq<string>>, run: EmbedRun, first: BatchRun, rest: EmbedRun)
    requires run == EmbedBatches(call, start, batches) && run.result.Ok? && batches != []
    requires first == RetryFrom(call, start, batches[0], 0)
    requires rest == EmbedBatches(call, start + first.attempts, batches[1..])
    ensures multiset(run.delays)[PAUSE_MS] == |batches| - 1
    ensures |batches| == 1 ==> run.delays == first.delays
    ensures |batches| > 1 ==> run.delays == first.delays + [PAUSE_MS] + rest.delays
    decreases |batches|
  {
    EmbedSplit(call, start, batches, run, first, rest);
    RetryDelaysNotPauses(call, start, batches[0], first);
    if |batches| > 1 {
      var tail := batches[1..];
      var next := RetryFrom(call, start + first.attempts, tail[0], 0);
      EmbedPauses(call, start + first.attempts, tail, rest, next,
                  EmbedBatches(call, start + first.attempts + next.attempts, tail[1..]));
    } else {
      assert rest.delays == [];
    }
  }

  /** When the service answers every batch with one vector per text, a run
      that embeds every batch yields one vector per text. */
  lemma {:induction false} EmbedOneVectorPerText(call: (nat, seq<string>) -> Outcome, start: nat,
                                                 batches: seq<seq<string>>, run: EmbedRun)
    requires forall n, b :: call(n, b).Embedded? ==> |call(n, b).vectors| == |b|
    requires run == EmbedBatches(call, start, batches) && run.result.Ok?
    ensures |run.result.value| == |Flatten(batches)|
    decreases |batches|
  {
    if batches != [] {
      var first := RetryFrom(call, start, batches[0], 0);
      RetryPolicy(call, start, batches[0], 0, first);
      var rest := EmbedBatches(call, start + first.attempts, batches[1..]);
      EmbedOneVectorPerText(call, start + first.attempts, batches[1..], rest);
    }
  }

  /** A failing run ends with the request that failed: the error returned
      is the one the last request made threw, for one of the batches. */
  lemma {:induction false} EmbedFailureIsLastCall(call: (nat, seq<string>) -> Outcome, start: nat,
                                                  batches: seq<seq<string>>, run: EmbedRun)
    requires run == EmbedBatches(call, start, batches) && run.result.Err?
    ensures run.calls >= 1
    ensures exists k :: 0 <= k < |batches| && call(start + run.calls - 1, batches[k]) == Threw(run.result.error)
    decreases |batches|
  {
    var first := RetryFrom(call, start, batches[0], 0);
    RetryPolicy(call, start, batches[0], 0, first);
    if first.result.Ok? {
      var rest := EmbedBatches(call, start + first.attempts, batches[1..]);
      EmbedFailureIsLastCall(call, start + first.attempts, batches[1..], rest);
      var k :| 0 <= k < |batches[1..]| && call(start + first.attempts + rest.calls - 1, batches[1..][k]) == Threw(rest.result.error);
      assert batches[1..][k] == batches[k + 1];
    } else {
      assert call(start + run.calls - 1, batches[0]) == Threw(run.result.error);
    }
  }

  /** The retry policy sends no request beyond those it counts. */
  lemma {:induction false} RetryUsesOnlyItsCalls(call1: (nat, seq<string>) -> Outcome, call2: (nat, seq<string>) -> Outcome,
                                                 start: nat, batch: seq<string>, a: nat)
    requires a < MAX_RETRIES
    requires forall n :: start + a <= n < start + RetryFrom(call1, start, batch, a).attempts ==> call1(n, batch) == call2(n, batch)
    ensures RetryFrom(call1, start, batch, a) == RetryFrom(call2, start, batch, a)
    decreases MAX_RETRIES - a
  {
    var run := RetryFrom(call1, start, batch, a);
    RetryPolicy(call1, start, batch, a, run);
    assert call1(start + a, batch) == call2(start + a, batch);
    var first := call1(start + a, batch);
    if first.Threw? && Is429(first.error) && a < MAX_RETRIES - 1 {
      RetryUsesOnlyItsCalls(call1, call2, start, batch, a + 1);
    }
  }

  /** Which requests a run makes, and what it returns, depend only on the
      outcomes of the requests it counts: after a failure no further request
      is sent, so the failure aborts the whole run. */
  lemma {:induction false} EmbedUsesOnlyItsCalls(call1: (nat, seq<string>) -> Outcome, call2: (nat, seq<string>) -> Outcome,
                                                 start: nat, batches: seq<seq<string>>, run: EmbedRun)
    requires run == EmbedBatches(call1, start, batches)
    requires forall n, b :: start <= n < start + run.calls ==> call1(n, b) == call2(n, b)
    ensures run == EmbedBatches(call2, start, batches)
    decreases |batches|, 1
  {
    if batches != [] {
      var first := RetryFrom(call1, start, batches[0], 0);
      RetryFirstOfRun(call1, start, batches, first, run);
      RetryUsesOnlyItsCalls(call1, call2, start, batches[0], 0);
      if first.result.Ok? {
        RestUsesOnlyItsCalls(call1, call2, start, batches, first, run);
      }
    }
  }

  /** After a first batch that succeeds, the rest of the run. */
  lemma {:induction false} RestUsesOnlyItsCalls(call1: (nat, seq<string>) -> Outcome, call2: (nat, seq<string>) -> Outcome,
                                                start: nat, batches: seq<seq<string>>, first: BatchRun, run: EmbedRun)
    requires batches != [] && first == RetryFrom(call1, start, batches[0], 0) && first.result.Ok?
    requires first == RetryFrom(call2, start, batches[0], 0)
    requires run == EmbedBatches(call1, start, batches)
    requires forall n, b :: start <= n < start + run.calls ==> call1(n, b) == call2(n, b)
    ensures run == EmbedBatches(call2, start, batches)
    decreases |batches|, 0
  {
    var next := start + first.attempts;
    var pause := if |batches| > 1 then [PAUSE_MS] else [];
    var rest := EmbedBatches(call1, next, batches[1..]);
    assert run == After(first.result.value, first.attempts, first.delays + pause, rest);
    EmbedUsesOnlyItsCalls(call1, call2, next, batches[1..], rest);
    assert EmbedBatches(call2, start, batches)
        == After(first.result.value, first.attempts, first.delays + pause, EmbedBatches(call2, next, batches[1..]));
  }

  /** The first batch's requests are among those a run counts. */
  lemma RetryFirstOfRun(call: (nat, seq<string>) -> Outcome, start: nat, batches: seq<seq<string>>,
                        first: BatchRun, run: EmbedRun)
    requires batches != [] && first == RetryFrom(call, start, batches[0], 0)
    requires run == EmbedBatches(call, start, batches)
    ensures first.attempts <= run.calls
  {
  }

  /** embedTexts as a whole: a missing key fails before any request; no
      texts means no request and no vector; a run that succeeds pauses
      ceil(|texts| / BATCH_SIZE) - 1 times and, when the service answers
      every batch with one vector per text, returns one vector per text. */
  lemma EmbedTextsRun(call: (nat, seq<string>) -> Outcome, apiKey: Option<string>, texts: seq<string>, run: EmbedRun)
    requires run == EmbedSpec(call, apiKey, texts)
    ensures !IsTruthy(apiKey) ==> run == EmbedRun(Err(MISSING_KEY), 0, [])
    ensures IsTruthy(apiKey) && texts == [] ==> run == EmbedRun(Ok([]), 0, [])
    ensures run.result.Ok? && texts != [] ==>
              multiset(run.delays)[PAUSE_MS] == (|texts| + BATCH_SIZE - 1) / BATCH_SIZE - 1
    ensures run.result.Ok? && (forall n, b :: call(n, b).Embedded? ==> |call(n, b).vectors| == |b|) ==>
              |run.result.value| == |texts|
  {
    if IsTruthy(apiKey) {
      BatchesCover(texts);
      if run.result.Ok? && texts != [] {
        var first := RetryFrom(call, 0, Batches(texts)[0], 0);
        EmbedPauses(call, 0, Batches(texts), run, first, EmbedBatches(call, first.attempts, Batches(texts)[1..]));
      }
      if run.result.Ok? && (forall n, b :: call(n, b).Embedded? ==> |call(n, b).vectors| == |b|) {
        EmbedOneVectorPerText(call, 0, Batches(texts), run);
      }
    }
  }

  lemma AfterNothing(r: EmbedRun)
    ensures After([], 0, [], r) == r
  {
    assert [] + r.delays == r.delays;
    if r.result.Ok? {
      assert [] + r.result.value == r.result.value;
    }
  }

  /** One pass of the loop at lib/embeddings.ts:47-55: embeds the batch
      that starts at text i, appends its vectors and records the pause that
      follows it unless it is the last batch. Err carries the batch's error. */
  method EmbedBatchAt(call: (nat, seq<string>) -> Outcome, texts: seq<string>, i: nat,
                      all: seq<Vector>, calls: nat, delays: seq<nat>, ghost spec: EmbedRun)
    returns (r: Result<seq<Vector>, EmbedError>, calls': nat, delays': seq<nat>)
    requires i < |texts|
    requires spec == After(all, calls, delays, EmbedBatches(call, calls, Batches(texts[i..])))
    ensures r.Err? ==> spec == EmbedRun(r, calls', delays')
    ensures r.Ok? ==> spec == After(r.value, calls', delays',
                                    EmbedBatches(call, calls', Batches(texts[Clamp(i + BATCH_SIZE, |texts|)..])))
  {
    var batch := Slice(texts, i, i + BATCH_SIZE);
    var result, attempts, waits := BatchWithRetry(call, calls, batch);
    if result.Err? {
      EmbedStepErr(call, texts, i, spec, all, calls, delays, batch, BatchRun(result, attempts, waits));
      r, calls', delays' := Err(result.error), calls + attempts, delays + waits;
    } else {
      var pause := if i + BATCH_SIZE < |texts| then [PAUSE_MS] else [];
      EmbedStepOk(call, texts, i, spec, all, calls, delays, batch, BatchRun(result, attempts, waits), pause,
                  Clamp(i + BATCH_SIZE, |texts|));
      r, calls', delays' := Ok(all + result.value), calls + attempts, delays + (waits + pause);
    }
  }

  /** lib/embeddings.ts:43-58 */
  method EmbedTexts(call: (nat, seq<string>) -> Outcome, apiKey: Option<string>, texts: seq<string>)
    returns (result: Result<seq<Vector>, EmbedError>, calls: nat, delays: seq<nat>)
    ensures EmbedRun(result, calls, delays) == EmbedSpec(call, apiKey, texts)
  {
    if !IsTruthy(apiKey) {
      result, calls, delays := Err(MISSING_KEY), 0, [];
      return;
    }
    ghost var spec := EmbedSpec(call, apiKey, texts);
    var all: seq<Vector> := [];
    calls, delays := 0, [];
    var i := 0;
    assert texts[i..] == texts;
    AfterNothing(EmbedBatches(call, calls, Batches(texts)));
    while i < |texts|
      invariant spec == After(all, calls, delays, EmbedBatches(call, calls, Batches(texts[Clamp(i, |texts|)..])))
      decreases |texts| - i
    {
      assert Clamp(i, |texts|) == i;
      var r;
      r, calls, delays := EmbedBatchAt(call, texts, i, all, calls, delays, spec);
      if r.Err? {
        result := r;
        return;
      }
      all := r.value;
      i := i + BATCH_SIZE;
    }
    assert texts[Clamp(i, |texts|)..] == [];
    assert all + [] == all && delays + [] == delays;
    result := Ok(all);
  }
}
