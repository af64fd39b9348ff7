/** lib/rerank.ts: LLM reranking of candidate passages and answer
    generation. The language model is a parameter `generate` from a prompt to
    its reply text (Err carries the message of anything thrown while getting
    the model or generating); `JSON.parse` is a parameter `parse` that yields
    the list of (index, score) objects, or None where it throws. */
module Rerank {
  import opened Types
  import opened JsText
  import StableSort

  // =====================================================================
  // The candidate list and the rerank prompt

  /** Characters of passage text shown to the reranker. */
  const PREVIEW_LENGTH: nat := 300

  /** `[i] (chunkId=<id>) ` */
  function PreviewHeader(i: nat, p: Passage): string
  {
    "[" + NatToString(i) + "] (chunkId=" + IntToString(p.chunkId) + ") "
  }

  /** lib/rerank.ts:24-25: the candidate numbered i shows the first 300
      characters of its text, followed by "..." exactly when something was
      cut off. */
  function PreviewLine(i: nat, p: Passage): (r: string)
    ensures |p.text| <= PREVIEW_LENGTH ==> r == PreviewHeader(i, p) + p.text
    ensures |p.text| > PREVIEW_LENGTH ==> r == PreviewHeader(i, p) + p.text[..PREVIEW_LENGTH] + "..."
  {
    PreviewHeader(i, p) + Prefix(p.text, PREVIEW_LENGTH) + (if |p.text| > PREVIEW_LENGTH then "..." else "")
  }

  function PreviewLines(passages: seq<Passage>): (r: seq<string>)
    ensures |r| == |passages|
  {
    seq(|passages|, i requires 0 <= i < |passages| => PreviewLine(i, passages[i]))
  }

  /** lib/rerank.ts:29-38 */
  function RerankPrompt(query: string, passages: seq<Passage>): string
  {
    RERANK_INTRO + query + QUERY_CLOSE + Join(PreviewLines(passages), "\n\n") + RERANK_INSTRUCTIONS
  }

  const RERANK_INTRO: string :=
    "You are a search relevance judge. Score each passage for relevance to the query.\n\nQuery: \""

  /** Closes the quoted query and opens the passage list. */
  const QUERY_CLOSE: string := "\"\n\nPassages:\n"

  const RERANK_INSTRUCTIONS: string :=
    "\n\nReturn a JSON array of objects with \"index\" (passage index) and \"score\" (0-10, where 10 is most relevant).\n"
    + "Return ONLY the JSON array, no other text.\n"
    + "Example: [{\"index\": 0, \"score\": 8}, {\"index\": 1, \"score\": 3}]"

  /** An occurrence survives putting text in front. */
  lemma OccursAfter(a: string, t: string, w: string, o: nat)
    requires OccursAt(t, w, o)
    ensures OccursAt(a + t, w, |a| + o)
  {
    assert (a + t)[|a| + o..|a| + o + |w|] == t[o..o + |w|];
  }

  /** An occurrence survives putting text behind. */
  lemma OccursBefore(t: string, b: string, w: string, o: nat)
    requires OccursAt(t, w, o)
    ensures OccursAt(t + b, w, o)
  {
    assert (t + b)[o..o + |w|] == t[o..o + |w|];
  }

  /** Every piece occurs in the joined string. */
  lemma {:induction false} JoinHolds(ws: seq<string>, sep: string, k: nat) returns (o: nat)
    requires k < |ws|
    ensures OccursAt(Join(ws, sep), ws[k], o)
  {
    if |ws| == 1 {
      o := 0;
    } else if k == 0 {
      o := 0;
      assert (ws[0] + (sep + Join(ws[1..], sep)))[..|ws[0]|] == ws[0];
      assert Join(ws, sep) == ws[0] + (sep + Join(ws[1..], sep));
    } else {
      var o' := JoinHolds(ws[1..], sep, k - 1);
      OccursAfter(ws[0] + sep, Join(ws[1..], sep), ws[k], o');
      o := |ws[0] + sep| + o';
    }
  }

  /** Every candidate is shown to the reranker under its position in the
      list: the prompt contains the preview line of passage i, numbered i. */
  lemma PromptListsEveryCandidate(query: string, passages: seq<Passage>, i: nat)
    requires i < |passages|
    ensures Contains(RerankPrompt(query, passages), PreviewLine(i, passages[i]))
  {
    var lines := PreviewLines(passages);
    var list := Join(lines, "\n\n");
    var before := RERANK_INTRO + query + QUERY_CLOSE;
    var after := RERANK_INSTRUCTIONS;
    var o := JoinHolds(lines, "\n\n", i);
    OccursAfter(before, list, lines[i], o);
    OccursBefore(before + list, after, lines[i], |before| + o);
    assert RerankPrompt(query, passages) == before + list + after;
  }

  // =====================================================================
  // Reading the reply

  /** One `{index, score}` object of the reply. */
  datatype ScoreEntry = ScoreEntry(index: int, score: real)

  /** The index of the first c in s, or |s| when there is none. */
  function FirstOf(s: string, c: char): (r: nat)
    ensures r <= |s|
    ensures r < |s| ==> s[r] == c
    ensures forall k :: 0 <= k < r ==> s[k] != c
  {
    if s == [] then 0 else if s[0] == c then 0 else 1 + FirstOf(s[1..], c)
  }

  /** The index of the last c in s, or -1 when there is none. */
  function LastOf(s: string, c: char): (r: int)
    ensures -1 <= r < |s|
    ensures r >= 0 ==> s[r] == c
    ensures forall k :: r < k < |s| ==> s[k] != c
  {
    if s == [] then -1 else if s[|s| - 1] == c then |s| - 1 else LastOf(s[..|s| - 1], c)
  }

  /** lib/rerank.ts:45, `raw.match(/\[[\s\S]*\]/)`: the leftmost, longest
      run from a `[` to a `]`. It exists exactly when some `[` comes before
      some `]`, and then runs from the first `[` to the last `]`. */
  function BracketMatch(raw: string): (r: Option<string>)
    ensures r.None? <==> forall i, j :: 0 <= i < j < |raw| ==> !(raw[i] == '[' && raw[j] == ']')
    ensures r.Some? ==>
              var i, j := FirstOf(raw, '['), LastOf(raw, ']');
              && 0 <= i < j < |raw| && r.value == raw[i..j + 1]
              && raw[i] == '[' && raw[j] == ']'
              && (forall k :: 0 <= k < i ==> raw[k] != '[')
              && (forall k :: j < k < |raw| ==> raw[k] != ']')
  {
    var i, j := FirstOf(raw, '['), LastOf(raw, ']');
    if i < j then Some(raw[i..j + 1]) else None
  }

  /** What the reply yields: no bracketed text, bracketed text that
      `JSON.parse` rejects, or the parsed list. */
  datatype Reply = NoArray | Unparsable | Parsed(entries: seq<ScoreEntry>)

  /** lib/rerank.ts:43-52 */
  function ReadReply(raw: string, parse: string -> Option<seq<ScoreEntry>>): Reply
  {
    match BracketMatch(raw)
    case None => NoArray
    case Some(text) =>
      match parse(text)
      case None => Unparsable
      case Some(entries) => Parsed(entries)
  }

  // =====================================================================
  // Selecting and rescoring

  function EntryScore(e: ScoreEntry): real
  {
    e.score
  }

  predicate IndexInRange(e: ScoreEntry, len: nat)
  {
    0 <= e.index < len
  }

  /** lib/rerank.ts:56: keeps, in reply order, the entries whose index names
      a candidate, each as often as the reply gives it. */
  function InRange(scores: seq<ScoreEntry>, len: nat): (r: seq<ScoreEntry>)
    ensures forall k :: 0 <= k < |r| ==> IndexInRange(r[k], len)
    ensures forall e :: multiset(r)[e] == if IndexInRange(e, len) then multiset(scores)[e] else 0
  {
    if scores == [] then []
    else
      assert scores == [scores[0]] + scores[1..];
      (if IndexInRange(scores[0], len) then [scores[0]] else []) + InRange(scores[1..], len)
  }

  /** lib/rerank.ts:55-58: in range, stably sorted by score descending, cut to topN. */
  function Ranked(scores: seq<ScoreEntry>, len: nat, topN: int): seq<ScoreEntry>
  {
    Prefix(StableSort.SortDesc(InRange(scores, len), EntryScore), topN)
  }

  lemma RankedInRange(scores: seq<ScoreEntry>, len: nat, topN: int)
    ensures forall k :: 0 <= k < |Ranked(scores, len, topN)| ==> IndexInRange(Ranked(scores, len, topN)[k], len)
  {
    var sorted := StableSort.SortDesc(InRange(scores, len), EntryScore);
    StableSort.SortDescCorrect(InRange(scores, len), EntryScore);
    PrefixLength(sorted, topN);
    var top := Ranked(scores, len, topN);
    forall k | 0 <= k < |top| ensures IndexInRange(top[k], len) {
      assert top[k] == sorted[k];
      assert sorted[k] in multiset(sorted);
    }
  }

  /** lib/rerank.ts:61-62: the named candidate with its score replaced by the
      reranker's, scaled from 0-10 to 0-1. */
  function Rescore(passages: seq<Passage>, e: ScoreEntry): Passage
    requires IndexInRange(e, |passages|)
  {
    passages[e.index].(score := e.score / 10.0)
  }

  /** lib/rerank.ts:55-63 */
  function Select(passages: seq<Passage>, scores: seq<ScoreEntry>, topN: int): seq<Passage>
  {
    var top := Ranked(scores, |passages|, topN);
    RankedInRange(scores, |passages|, topN);
    seq(|top|, k requires 0 <= k < |top| => Rescore(passages, top[k]))
  }

  /** The stable sort keeps every in-range entry and the reply order of
      equal scores. */
  lemma SortKeepsEntries(kept: seq<ScoreEntry>, sorted: seq<ScoreEntry>)
    requires sorted == StableSort.SortDesc(kept, EntryScore)
    ensures StableSort.SortedDesc(sorted, EntryScore) && multiset(sorted) == multiset(kept)
    ensures |sorted| == |kept|
    ensures forall v :: StableSort.WithKey(sorted, EntryScore, v) == StableSort.WithKey(kept, EntryScore, v)
  {
    StableSort.SortDescCorrect(kept, EntryScore);
    forall v ensures StableSort.WithKey(sorted, EntryScore, v) == StableSort.WithKey(kept, EntryScore, v) {
      StableSort.SortDescStable(kept, EntryScore, v);
    }
  }

  /** The cut keeps a prefix of the ranking that outranks what it drops. */
  lemma TopOfRanking(sorted: seq<ScoreEntry>, topN: int, top: seq<ScoreEntry>)
    requires StableSort.SortedDesc(sorted, EntryScore) && top == Prefix(sorted, topN)
    ensures |top| <= |sorted| && top == sorted[..|top|]
    ensures topN >= 0 ==> |top| == if topN <= |sorted| then topN else |sorted|
    ensures forall i, j :: 0 <= i < j < |top| ==> top[i].score >= top[j].score
    ensures forall i, j :: 0 <= i < |top| <= j < |sorted| ==> sorted[i].score >= sorted[j].score
  {
    PrefixLength(sorted, topN);
    forall i, j | 0 <= i < j < |top| ensures top[i].score >= top[j].score {
      assert top[i] == sorted[i] && top[j] == sorted[j];
    }
  }

  /** Each selected passage is the candidate its entry names, rescored. */
  lemma SelectedEntries(passages: seq<Passage>, scores: seq<ScoreEntry>, topN: int,
                        top: seq<ScoreEntry>, r: seq<Passage>)
    requires top == Ranked(scores, |passages|, topN) && r == Select(passages, scores, topN)
    ensures |r| == |top|
    ensures forall k :: 0 <= k < |r| ==> IndexInRange(top[k], |passages|)
                                         && r[k] == passages[top[k].index].(score := top[k].score / 10.0)
  {
    RankedInRange(scores, |passages|, topN);
  }

  /** The reranked list: the entries kept are the best-scoring in-range
      entries of the reply (every in-range entry cut off by topN scores no
      higher than every one kept), entries of equal score keep reply order,
      each output is the candidate its entry names with the rescaled score
      (so an index given twice gives that candidate twice), the output is
      non-increasing by score, and with topN >= 0 it is as long as topN
      allows. */
  lemma SelectRanking(passages: seq<Passage>, scores: seq<ScoreEntry>, topN: int,
                      kept: seq<ScoreEntry>, sorted: seq<ScoreEntry>, top: seq<ScoreEntry>, r: seq<Passage>)
    requires kept == InRange(scores, |passages|) && sorted == StableSort.SortDesc(kept, EntryScore)
    requires top == Prefix(sorted, topN) && r == Select(passages, scores, topN)
    ensures multiset(sorted) == multiset(kept)
    ensures forall v :: StableSort.WithKey(sorted, EntryScore, v) == StableSort.WithKey(kept, EntryScore, v)
    ensures top == sorted[..|top|] && |r| == |top|
    ensures topN >= 0 ==> |r| == if topN <= |kept| then topN else |kept|
    ensures forall k :: 0 <= k < |r| ==> IndexInRange(top[k], |passages|)
                                         && r[k] == passages[top[k].index].(score := top[k].score / 10.0)
    ensures forall i, j :: 0 <= i < j < |r| ==> r[i].score >= r[j].score
    ensures forall i, j :: 0 <= i < |top| <= j < |sorted| ==> sorted[i].score >= sorted[j].score
  {
    SortKeepsEntries(kept, sorted);
    TopOfRanking(sorted, topN, top);
    SelectedEntries(passages, scores, topN, top, r);
    forall i, j | 0 <= i < j < |r| ensures r[i].score >= r[j].score {
      assert r[i].score == top[i].score / 10.0 && r[j].score == top[j].score / 10.0;
    }
  }

  /** Scores on the reranker's 0-10 scale come out on a 0-1 scale. */
  lemma SelectNormalises(passages: seq<Passage>, scores: seq<ScoreEntry>, topN: int)
    requires forall k :: 0 <= k < |scores| ==> 0.0 <= scores[k].score <= 10.0
    ensures forall k :: 0 <= k < |Select(passages, scores, topN)| ==> 0.0 <= Select(passages, scores, topN)[k].score <= 1.0
  {
    var kept := InRange(scores, |passages|);
    var sorted := StableSort.SortDesc(kept, EntryScore);
    var top := Prefix(sorted, topN);
    var r := Select(passages, scores, topN);
    SelectRanking(passages, scores, topN, kept, sorted, top, r);
    forall k | 0 <= k < |r| ensures 0.0 <= r[k].score <= 1.0 {
      assert top[k] == sorted[k];
      assert sorted[k] in multiset(kept);
      assert sorted[k] in multiset(scores);
    }
  }

  /** The passages that a reply yields. No bracketed text leaves the entry
      list empty and so gives no passage; bracketed text that does not parse
      gives the first topN candidates, unchanged and in their original order. */
  function FromReply(reply: Reply, passages: seq<Passage>, topN: int): (r: seq<Passage>)
    ensures reply.NoArray? ==> r == []
    ensures reply.Unparsable? && topN >= 0 ==> r == passages[..if topN <= |passages| then topN else |passages|]
  {
    PrefixLength(passages, topN);
    match reply
    case NoArray => Select(passages, [], topN)
    case Unparsable => Prefix(passages, topN)
    case Parsed(entries) => Select(passages, entries, topN)
  }

  /** lib/rerank.ts:13-64. With no candidates the model is not consulted;
      an error from the model propagates unchanged; otherwise the result is
      what the reply yields. */
  function RerankPassages(query: string, passages: seq<Passage>, topN: int,
                          generate: string -> Result<string, string>,
                          parse: string -> Option<seq<ScoreEntry>>): (r: Result<seq<Passage>, string>)
    ensures passages == [] ==> r == Ok([])
    ensures passages != [] ==>
              var reply := generate(RerankPrompt(query, passages));
              && (r.Err? <==> reply.Err?)
              && (r.Err? ==> r.error == reply.error)
              && (r.Ok? ==> r.value == FromReply(ReadReply(reply.value, parse), passages, topN))
  {
    if |passages| == 0 then Ok([])
    else
      match generate(RerankPrompt(query, passages))
      case Err(e) => Err(e)
      case Ok(raw) => Ok(FromReply(ReadReply(raw, parse), passages, topN))
  }

  /** Reranking only reorders, cuts and rescores: every passage it returns
      is one of the candidates with at most its score changed, and with
      topN >= 0 there are at most topN of them. */
  lemma RerankedFromCandidates(query: string, passages: seq<Passage>, topN: int,
                               generate: string -> Result<string, string>,
                               parse: string -> Option<seq<ScoreEntry>>, r: Result<seq<Passage>, string>)
    requires r == RerankPassages(query, passages, topN, generate, parse) && r.Ok?
    ensures topN >= 0 ==> |r.value| <= topN
    ensures forall k :: 0 <= k < |r.value| ==>
              exists j :: 0 <= j < |passages| && r.value[k] == passages[j].(score := r.value[k].score)
  {
    if passages != [] {
      var reply := ReadReply(generate(RerankPrompt(query, passages)).value, parse);
      match reply
      case NoArray =>
      case Unparsable =>
        PrefixLength(passages, topN);
        forall k | 0 <= k < |r.value|
          ensures exists j :: 0 <= j < |passages| && r.value[k] == passages[j].(score := r.value[k].score)
        {
          assert r.value[k] == passages[k];
        }
      case Parsed(entries) =>
        var kept := InRange(entries, |passages|);
        var sorted := StableSort.SortDesc(kept, EntryScore);
        var top := Prefix(sorted, topN);
        SelectRanking(passages, entries, topN, kept, sorted, top, r.value);
        forall k | 0 <= k < |r.value|
          ensures exists j :: 0 <= j < |passages| && r.value[k] == passages[j].(score := r.value[k].score)
        {
          var j := top[k].index;
          assert r.value[k] == passages[j].(score := r.value[k].score);
        }
    }
  }

  // =====================================================================
  // generateAnswerFromPassages

  const NO_PASSAGES_ANSWER: string := "No relevant passages found."

  /** Characters of passage text given to the answer model. */
  const CONTEXT_LENGTH: nat := 500

  /** lib/rerank.ts:77: `[Chunk <id>, <section>]: <text>`, the section left
      out when it is missing or empty, the text cut at 500 characters. */
  function ContextLine(p: Passage): (r: string)
    ensures var body := p.text[..if |p.text| <= CONTEXT_LENGTH then |p.text| else CONTEXT_LENGTH];
            && (IsTruthy(p.section) ==> r == "[Chunk " + IntToString(p.chunkId) + ", " + p.section.value + "]: " + body)
            && (!IsTruthy(p.section) ==> r == "[Chunk " + IntToString(p.chunkId) + "]: " + body)
  {
    PrefixLength(p.text, CONTEXT_LENGTH);
    "[Chunk " + IntToString(p.chunkId) + (if IsTruthy(p.section) then ", " + p.section.value else "")
    + "]: " + Prefix(p.text, CONTEXT_LENGTH)
  }

  function ContextLines(passages: seq<Passage>): (r: seq<string>)
    ensures |r| == |passages|
  {
    seq(|passages|, i requires 0 <= i < |passages| => ContextLine(passages[i]))
  }

  /** lib/rerank.ts:81-88 */
  function AnswerPrompt(query: string, passages: seq<Passage>): string
  {
    ANSWER_INTRO + query + QUERY_CLOSE + Join(ContextLines(passages), "\n\n") + ANSWER_REQUEST
  }

  const ANSWER_INTRO: string :=
    "Answer the following question using ONLY the provided passages. Cite your sources using [Chunk N] notation.\n\nQuestion: \""

  const ANSWER_REQUEST: string := "\n\nProvide a concise, well-cited answer:"

  /** Every passage reaches the answer model with its chunk id. */
  lemma AnswerPromptCitesEveryPassage(query: string, passages: seq<Passage>, i: nat)
    requires i < |passages|
    ensures Contains(AnswerPrompt(query, passages), ContextLine(passages[i]))
  {
    var lines := ContextLines(passages);
    var context := Join(lines, "\n\n");
    var before := ANSWER_INTRO + query + QUERY_CLOSE;
    var after := ANSWER_REQUEST;
    var o := JoinHolds(lines, "\n\n", i);
    OccursAfter(before, context, lines[i], o);
    OccursBefore(before + context, after, lines[i], |before| + o);
    assert AnswerPrompt(query, passages) == before + context + after;
  }

  /** lib/rerank.ts:66-92: a fixed reply for no passages, without consulting
      the model; otherwise the model's reply (or error), unchanged. */
  function GenerateAnswer(query: string, passages: seq<Passage>,
                          generate: string -> Result<string, string>): (r: Result<string, string>)
    ensures passages == [] ==> r == Ok(NO_PASSAGES_ANSWER)
    ensures passages != [] ==> r == generate(AnswerPrompt(query, passages))
  {
    if |passages| == 0 then Ok(NO_PASSAGES_ANSWER)
    else generate(AnswerPrompt(query, passages))
  }
}
