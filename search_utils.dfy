/** lib/search-utils.ts: lexical query construction, the exact-phrase bonus
    and ordering of the lexical lane, Reciprocal Rank Fusion of the two
    lanes, and intent classification. The lexical index itself is not
    modelled: the candidate rows it returns for a MATCH, with their raw
    `bm25()` values, are an input. */
module SearchUtils {
  import opened Types
  import opened JsText
  import StableSort

  /** `STOP_WORDS.has(w)` (lib/search-utils.ts:6-16). */
  predicate IsStopWord(w: string)
  {
    w in {
      "a", "an", "the", "is", "are", "was", "were", "be", "been", "being",
      "do", "does", "did", "will", "would", "shall", "should", "may", "might", "can",
      "could", "has", "have", "had", "having", "i", "me", "my", "we", "our",
      "you", "your", "he", "him", "his", "she", "her", "it", "its", "they",
      "them", "their", "what", "which", "who", "whom", "this", "that", "these", "those",
      "am", "in", "on", "at", "to", "for", "of", "with", "by", "from",
      "as", "into", "about", "between", "through", "during", "before", "after", "above", "below",
      "and", "but", "or", "nor", "not", "no", "so", "if", "then", "than",
      "too", "very", "just", "where", "when", "how", "why"
    }
  }

  // =====================================================================
  // sanitizeFts5Query

  /** `.replace(/^"|"$/g, "")`: drops a `"` that opens the query and a `"`
      that closes it (a lone `"` is the opening one). */
  function StripEnclosingQuotes(q: string): string
  {
    var a := if |q| >= 1 && q[0] == '"' then 1 else 0;
    var b := if |q| - 1 >= a && q[|q| - 1] == '"' then |q| - 1 else |q|;
    q[a..b]
  }

  /** `.replace(/[^\w\s]/g, "")`: keeps word characters and whitespace. */
  function StripPunctuation(q: string): (r: string)
    ensures forall j :: 0 <= j < |r| ==> IsWordChar(r[j]) || IsSpace(r[j])
  {
    if q == [] then []
    else (if IsWordChar(q[0]) || IsSpace(q[0]) then [q[0]] else []) + StripPunctuation(q[1..])
  }

  function LowerAll(ws: seq<string>): seq<string>
  {
    seq(|ws|, k requires 0 <= k < |ws| => Lower(ws[k]))
  }

  /** `.filter((t) => !STOP_WORDS.has(t))`: the words that survive keep their
      order, and each keeps every one of its occurrences. */
  function RemoveStopWords(ws: seq<string>): seq<string>
  {
    if ws == [] then []
    else (if IsStopWord(ws[0]) then [] else [ws[0]]) + RemoveStopWords(ws[1..])
  }

  /** No stop word survives, and every other word keeps all its
      occurrences. */
  lemma {:induction false} RemoveStopWordsCounts(ws: seq<string>)
    ensures forall w :: multiset(RemoveStopWords(ws))[w] == if IsStopWord(w) then 0 else multiset(ws)[w]
    decreases |ws|
  {
    if ws != [] {
      RemoveStopWordsCounts(ws[1..]);
      assert ws == [ws[0]] + ws[1..];
    }
  }

  /** The filter works word by word and keeps order: filtering a
      concatenation filters each side in place, so the surviving words of
      the first part all come before those of the second. */
  lemma {:induction false} RemoveStopWordsAppend(a: seq<string>, b: seq<string>)
    ensures RemoveStopWords(a + b) == RemoveStopWords(a) + RemoveStopWords(b)
    decreases |a|
  {
    if a == [] {
      assert a + b == b;
    } else {
      var ab := a + b;
      assert ab[0] == a[0] && ab[1..] == a[1..] + b;
      RemoveStopWordsAppend(a[1..], b);
    }
  }

  function QuoteTerm(w: string): string
  {
    "\"" + w + "\""
  }

  function QuoteAll(ws: seq<string>): seq<string>
  {
    seq(|ws|, k requires 0 <= k < |ws| => QuoteTerm(ws[k]))
  }

  /** The FTS5 terms the query becomes, before they are joined. */
  function QueryTokens(q: string): seq<string>
  {
    QuoteAll(RemoveStopWords(LowerAll(Words(StripPunctuation(StripEnclosingQuotes(q))))))
  }

  /** lib/search-utils.ts:18-28 */
  function SanitizeFts5Query(q: string): string
  {
    Join(QueryTokens(q), " ")
  }

  /** The shape of every term: a double-quoted, lower-case run of ASCII word
      characters that is not a stop word. Quoting each term keeps FTS5 from
      reading any of them as an operator. */
  predicate IsFtsTerm(t: string)
  {
    && |t| >= 3 && t[0] == '"' && t[|t| - 1] == '"'
    && (forall j :: 1 <= j < |t| - 1 ==> IsWordChar(t[j]) && !IsUpperAscii(t[j]))
    && !IsStopWord(t[1..|t| - 1])
  }

  lemma {:induction false} WordsInheritChars(s: string)
    requires forall j :: 0 <= j < |s| ==> IsWordChar(s[j]) || IsSpace(s[j])
    ensures forall k, j :: 0 <= k < |Words(s)| && 0 <= j < |Words(s)[k]| ==> IsWordChar(Words(s)[k][j])
    decreases |s|
  {
    var a := LeadingSpaces(s);
    if a < |s| {
      var b := WordEnd(s, a);
      WordsInheritChars(s[b..]);
      assert Words(s) == [s[a..b]] + Words(s[b..]);
      forall k, j | 0 <= k < |Words(s)| && 0 <= j < |Words(s)[k]| ensures IsWordChar(Words(s)[k][j]) {
        if k == 0 {
          assert Words(s)[k][j] == s[a + j];
        } else {
          assert Words(s)[k] == Words(s[b..])[k - 1];
        }
      }
    }
  }

  /** A lower-cased word of `\w` characters that is not a stop word becomes a
      well-formed term. */
  lemma LoweredWordTerm(w: string)
    requires w != [] && forall j :: 0 <= j < |w| ==> IsWordChar(w[j])
    requires !IsStopWord(Lower(w))
    ensures IsFtsTerm(QuoteTerm(Lower(w))) && IsWord(QuoteTerm(Lower(w)))
  {
    var t := QuoteTerm(Lower(w));
    assert t[1..|t| - 1] == Lower(w);
    forall j | 1 <= j < |t| - 1 ensures IsWordChar(t[j]) && !IsUpperAscii(t[j]) {
      assert t[j] == LowerChar(w[j - 1]);
    }
  }

  /** Every term the sanitiser emits has the shape above, and splitting the
      emitted string on whitespace gives back exactly those terms. */
  lemma SanitizedTerms(q: string)
    ensures forall k :: 0 <= k < |QueryTokens(q)| ==> IsFtsTerm(QueryTokens(q)[k])
    ensures Words(SanitizeFts5Query(q)) == QueryTokens(q)
  {
    var stripped := StripPunctuation(StripEnclosingQuotes(q));
    var words := Words(stripped);
    WordsInheritChars(stripped);
    var lowered := LowerAll(words);
    var kept := RemoveStopWords(lowered);
    RemoveStopWordsCounts(lowered);
    var toks := QueryTokens(q);
    assert toks == QuoteAll(kept);
    forall k | 0 <= k < |toks| ensures IsFtsTerm(toks[k]) && IsWord(toks[k]) {
      var w := kept[k];
      assert w in multiset(kept);
      assert multiset(lowered)[w] > 0 && !IsStopWord(w);
      var i :| 0 <= i < |lowered| && lowered[i] == w;
      LoweredWordTerm(words[i]);
    }
    WordsOfJoin(toks);
  }

  /** The sanitised query is empty exactly when no term survives, that is,
      when every word of the query is a stop word or there is no word. */
  lemma SanitizedEmptyIff(q: string)
    ensures SanitizeFts5Query(q) == "" <==> QueryTokens(q) == []
  {
    var toks := QueryTokens(q);
    forall k | 0 <= k < |toks| ensures toks[k] != [] {
      assert |toks[k]| >= 2;
    }
    JoinEmptyIff(toks, " ");
  }

  lemma {:induction false} StripPunctuationAppend(x: string, y: string)
    ensures StripPunctuation(x + y) == StripPunctuation(x) + StripPunctuation(y)
  {
    if x == [] {
      assert x + y == y;
    } else {
      StripPunctuationAppend(x[1..], y);
      assert (x + y)[0] == x[0];
      assert (x + y)[1..] == x[1..] + y;
    }
  }

  lemma QuoteStripped(s: string)
    requires forall j :: 0 <= j < |s| ==> s[j] == '"'
    ensures StripPunctuation(s) == []
  {
    if s != [] {
      QuoteStripped(s[1..]);
    }
  }

  /** The `^"|"$` strip is subsumed by the punctuation strip, since `"` is
      neither a word character nor whitespace. */
  lemma StripEnclosingQuotesSubsumed(q: string)
    ensures StripPunctuation(StripEnclosingQuotes(q)) == StripPunctuation(q)
  {
    var a := if |q| >= 1 && q[0] == '"' then 1 else 0;
    var b := if |q| - 1 >= a && q[|q| - 1] == '"' then |q| - 1 else |q|;
    assert q == q[..a] + q[a..b] + q[b..];
    StripPunctuationAppend(q[..a] + q[a..b], q[b..]);
    StripPunctuationAppend(q[..a], q[a..b]);
    QuoteStripped(q[..a]);
    QuoteStripped(q[b..]);
  }

  // =====================================================================
  // internalBm25Search: bonus, order and limit

  /** A candidate row from the lexical index: the chunk, its section from the
      metadata join, and SQLite's raw `bm25()` cost (lower is better). */
  datatype Bm25Row = Bm25Row(chunkId: int, text: string, bm25: real, section: Option<string>)

  const PHRASE_BONUS: real := 5.0

  /** lib/search-utils.ts:39 — the query with punctuation removed, trimmed and
      lower-cased. */
  function ExactPhrase(query: string): string
  {
    Lower(Trim(StripPunctuation(query)))
  }

  /** The `score` column: `bm25 - 5.0` exactly when the lower-cased chunk text
      contains the phrase. */
  function AdjustedScore(text: string, bm25: real, phrase: string): (r: real)
    ensures r == bm25 - PHRASE_BONUS <==> Contains(Lower(text), phrase)
    ensures r == bm25 <==> !Contains(Lower(text), phrase)
  {
    bm25 - (if Contains(Lower(text), phrase) then PHRASE_BONUS else 0.0)
  }

  function RowPassage(row: Bm25Row, phrase: string): Passage
  {
    Passage(row.chunkId, row.text, AdjustedScore(row.text, row.bm25, phrase), row.section)
  }

  function RowPassages(rows: seq<Bm25Row>, phrase: string): seq<Passage>
  {
    seq(|rows|, k requires 0 <= k < |rows| => RowPassage(rows[k], phrase))
  }

  /** Sort key for `ORDER BY score ASC`: the negated score, so that a
      non-increasing key is a non-decreasing score. */
  function AscendingKey(p: Passage): real
  {
    -p.score
  }

  /** `ORDER BY score ASC`. SQLite leaves the order of equal scores open; the
      model keeps candidate order for them. */
  function OrderByScore(ps: seq<Passage>): seq<Passage>
  {
    StableSort.SortDesc(ps, AscendingKey)
  }

  /** SQLite's `LIMIT n`: a negative limit means no limit. */
  function SqlLimit<T>(s: seq<T>, n: int): (r: seq<T>)
    ensures n < 0 ==> r == s
    ensures n >= 0 ==> r == s[..if n <= |s| then n else |s|]
  {
    if n < 0 || n >= |s| then s else s[..n]
  }

  /** lib/search-utils.ts:30-65, given the rows the index matches for the
      sanitised query. */
  function InternalBm25Search(query: string, rows: seq<Bm25Row>, topK: int): seq<Passage>
  {
    var ftsQuery := SanitizeFts5Query(query);
    if ftsQuery == "" then []
    else SqlLimit(OrderByScore(RowPassages(rows, ExactPhrase(query))), topK)
  }

  /** With nothing left to match, the lane returns no passage, whatever the
      index holds (the query is never run). */
  lemma Bm25EmptyQuery(query: string, rows: seq<Bm25Row>, topK: int)
    requires QueryTokens(query) == []
    ensures InternalBm25Search(query, rows, topK) == []
  {
    SanitizedEmptyIff(query);
  }

  /** The lexical lane's ranking: results are ascending by adjusted score, at
      most topK of them (all for a negative limit), each the adjusted form of a
      candidate row, and they are the best-scoring candidates: every candidate
      left out scores no better than every one kept. */
  lemma Bm25Ranking(query: string, rows: seq<Bm25Row>, topK: int,
                    all: seq<Passage>, sorted: seq<Passage>, r: seq<Passage>)
    requires QueryTokens(query) != []
    requires all == RowPassages(rows, ExactPhrase(query)) && sorted == OrderByScore(all)
    requires r == InternalBm25Search(query, rows, topK)
    ensures && |r| == (if 0 <= topK < |rows| then topK else |rows|)
            && (forall i, j :: 0 <= i < j < |r| ==> r[i].score <= r[j].score)
            && multiset(sorted) == multiset(all)
            && r == sorted[..|r|]
            && (forall i, j :: 0 <= i < |r| <= j < |sorted| ==> r[i].score <= sorted[j].score)
  {
    SanitizedEmptyIff(query);
    StableSort.SortDescCorrect(all, AscendingKey);
    assert r == SqlLimit(sorted, topK);
    AscendingPrefix(sorted, r);
  }

  /** A prefix of a list sorted by ascending score is itself ascending and
      scores no higher than anything after it. */
  lemma AscendingPrefix(sorted: seq<Passage>, r: seq<Passage>)
    requires StableSort.SortedDesc(sorted, AscendingKey)
    requires |r| <= |sorted| && r == sorted[..|r|]
    ensures forall i, j :: 0 <= i < j < |r| ==> r[i].score <= r[j].score
    ensures forall i, j :: 0 <= i < |r| <= j < |sorted| ==> r[i].score <= sorted[j].score
  {
    forall i, j | 0 <= i < |r| <= j < |sorted| ensures r[i].score <= sorted[j].score {
      assert AscendingKey(sorted[i]) >= AscendingKey(sorted[j]);
    }
    forall i, j | 0 <= i < j < |r| ensures r[i].score <= r[j].score {
      assert AscendingKey(sorted[i]) >= AscendingKey(sorted[j]);
    }
  }

  /** Each row the lane returns is a candidate row with its bonus applied:
      score `bm25 - 5.0` when its lower-cased text contains the phrase, `bm25`
      otherwise, and all other fields unchanged. */
  lemma Bm25RowsAreCandidates(query: string, rows: seq<Bm25Row>, topK: int, k: nat)
    requires k < |InternalBm25Search(query, rows, topK)|
    ensures var p := InternalBm25Search(query, rows, topK)[k];
            exists row :: row in rows && p == Passage(row.chunkId, row.text,
              if Contains(Lower(row.text), ExactPhrase(query)) then row.bm25 - PHRASE_BONUS else row.bm25,
              row.section)
  {
    var all := RowPassages(rows, ExactPhrase(query));
    var sorted := OrderByScore(all);
    StableSort.SortDescCorrect(all, AscendingKey);
    var r := InternalBm25Search(query, rows, topK);
    var p := r[k];
    assert r == SqlLimit(sorted, topK);
    assert p == sorted[k];
    assert p in multiset(all);
    var i :| 0 <= i < |all| && all[i] == p;
    assert rows[i] in rows;
  }

  // =====================================================================
  // mergeAndDeduplicate: Reciprocal Rank Fusion

  /** lib/search-utils.ts:87 */
  const RRF_K: nat := 60

  /** What the passage at 0-based rank r adds: 1 / (k + r + 1). */
  function RrfContribution(rank: nat): (c: real)
    ensures 0.0 < c <= 1.0 / 61.0
  {
    1.0 / ((RRF_K + rank + 1) as real)
  }

  /** The sum, over every rank at which the lane lists `id` (repeats
      included), of that rank's contribution. */
  function LaneScore(lane: seq<Passage>, id: int): real
  {
    if lane == [] then 0.0
    else LaneScore(lane[..|lane| - 1], id)
         + (if lane[|lane| - 1].chunkId == id then RrfContribution(|lane| - 1) else 0.0)
  }

  /** A chunk's fused score: the sum of its contributions from both lanes. */
  function RrfScore(bm25: seq<Passage>, vector: seq<Passage>, id: int): real
  {
    LaneScore(bm25, id) + LaneScore(vector, id)
  }

  predicate HasId(s: seq<Passage>, id: int)
  {
    exists k :: 0 <= k < |s| && s[k].chunkId == id
  }

  /** The chunk ids of s, each once, in the order they are first seen: the
      key order of the source's `Map`. */
  function FirstSeenIds(s: seq<Passage>): (ids: seq<int>)
    ensures forall i, j :: 0 <= i < j < |ids| ==> ids[i] != ids[j]
    ensures forall id :: id in ids <==> HasId(s, id)
  {
    if s == [] then []
    else
      var prev := FirstSeenIds(s[..|s| - 1]);
      assert forall id :: HasId(s, id) <==> HasId(s[..|s| - 1], id) || s[|s| - 1].chunkId == id by {
        forall id | HasId(s, id) ensures HasId(s[..|s| - 1], id) || s[|s| - 1].chunkId == id {
          var k :| 0 <= k < |s| && s[k].chunkId == id;
          if k < |s| - 1 { assert s[..|s| - 1][k] == s[k]; }
        }
        forall id | HasId(s[..|s| - 1], id) ensures HasId(s, id) {
          var k :| 0 <= k < |s| - 1 && s[..|s| - 1][k].chunkId == id;
          assert s[k] == s[..|s| - 1][k];
        }
      }
      if s[|s| - 1].chunkId in prev then prev else prev + [s[|s| - 1].chunkId]
  }

  /** The index of the first passage in s with this chunk id. */
  function FirstIndex(s: seq<Passage>, id: int): (k: nat)
    requires HasId(s, id)
    ensures k < |s| && s[k].chunkId == id
    ensures forall j :: 0 <= j < k ==> s[j].chunkId != id
  {
    if s[0].chunkId == id then 0
    else
      assert HasId(s[1..], id) by {
        var k :| 0 <= k < |s| && s[k].chunkId == id;
        assert s[1..][k - 1] == s[k];
      }
      1 + FirstIndex(s[1..], id)
  }

  /** The passage a chunk id is first seen with: it supplies the text and
      section of the fused entry. */
  function FirstOccurrence(s: seq<Passage>, id: int): Passage
    requires HasId(s, id)
  {
    s[FirstIndex(s, id)]
  }

  /** The payload of a fused entry with its score replaced by the RRF total. */
  function FusedPassage(bm25: seq<Passage>, vector: seq<Passage>, id: int): Passage
    requires HasId(bm25 + vector, id)
  {
    FirstOccurrence(bm25 + vector, id).(score := RrfScore(bm25, vector, id))
  }

  /** One passage per distinct chunk id, in first-seen order: BM25 ids first,
      then ids new in the vector list. */
  function FirstSeenPassages(bm25: seq<Passage>, vector: seq<Passage>): (r: seq<Passage>)
    ensures |r| == |FirstSeenIds(bm25 + vector)|
  {
    var ids := FirstSeenIds(bm25 + vector);
    seq(|ids|, k requires 0 <= k < |ids| => FusedPassage(bm25, vector, ids[k]))
  }

  function ScoreKey(p: Passage): real
  {
    p.score
  }

  /** The fused list: the first-seen passages ordered by non-increasing RRF
      score, ties in first-seen order. */
  function Fused(bm25: seq<Passage>, vector: seq<Passage>): seq<Passage>
  {
    StableSort.SortDesc(FirstSeenPassages(bm25, vector), ScoreKey)
  }

  /** The entry the source's `Map` keeps per chunk id. */
  datatype FusionEntry = FusionEntry(passage: Passage, rrfScore: real)

  function RrfKey(e: FusionEntry): real
  {
    e.rrfScore
  }

  /** `({...entry.passage, score: entry.rrfScore})` */
  function EntryPassage(e: FusionEntry): Passage
  {
    e.passage.(score := e.rrfScore)
  }

  /** The insertion-order part of the map's state after walking `seen`: one
      entry per chunk id seen, in first-seen order, holding the passage the
      id was first seen with. */
  ghost predicate SeenHolds(seen: seq<Passage>, entries: map<int, FusionEntry>, order: seq<int>)
  {
    && order == FirstSeenIds(seen)
    && (forall id :: id in entries <==> id in order)
    && (forall k :: 0 <= k < |order| ==> order[k] in entries)
    && (forall id :: id in entries ==> HasId(seen, id) && entries[id].passage == FirstOccurrence(seen, id))
  }

  /** What the map and its insertion order hold once the BM25 list `b` and
      then the vector list `v` have been walked: the entries above, each
      scored with the sum of the contributions read so far. */
  ghost predicate MapHolds(b: seq<Passage>, v: seq<Passage>, entries: map<int, FusionEntry>, order: seq<int>)
  {
    && SeenHolds(b + v, entries, order)
    && (forall id :: id in entries ==> entries[id].rrfScore == RrfScore(b, v, id))
  }

  /** `Array.from(scoreMap.values())`: the entries in insertion order. */
  function MapValues(entries: map<int, FusionEntry>, order: seq<int>): (r: seq<FusionEntry>)
    requires forall k :: 0 <= k < |order| ==> order[k] in entries
    ensures |r| == |order| && forall k :: 0 <= k < |order| ==> r[k] == entries[order[k]]
  {
    seq(|order|, k requires 0 <= k < |order| => entries[order[k]])
  }

  /** Once both lists have been walked, the entries rewritten as passages are
      the first-seen passages with their fused scores. */
  lemma {:induction false} MapValuesFused(b: seq<Passage>, v: seq<Passage>)
    ensures StableSort.Map(MapValues(FusionMap(b, v), FirstSeenIds(b + v)), EntryPassage) == FirstSeenPassages(b, v)
  {
  }

  /** The map the two loops have built once `b` and then `v` have been
      walked. */
  function FusionMap(b: seq<Passage>, v: seq<Passage>): map<int, FusionEntry>
  {
    map id | id in FirstSeenIds(b + v) :: FusionEntry(FirstOccurrence(b + v, id), RrfScore(b, v, id))
  }

  lemma {:induction false} FusionMapHolds(b: seq<Passage>, v: seq<Passage>)
    ensures MapHolds(b, v, FusionMap(b, v), FirstSeenIds(b + v))
  {
  }

  lemma {:induction false} MapHoldsFusionMap(b: seq<Passage>, v: seq<Passage>, entries: map<int, FusionEntry>, order: seq<int>)
    requires MapHolds(b, v, entries, order)
    ensures entries == FusionMap(b, v)
  {
    var m := FusionMap(b, v);
    assert forall id :: id in entries <==> id in m;
    forall id | id in entries ensures entries[id] == m[id] {
      assert entries[id].passage == m[id].passage && entries[id].rrfScore == m[id].rrfScore;
    }
  }

  /** The map after one passage whose contribution is c. */
  function Accumulate(entries: map<int, FusionEntry>, p: Passage, c: real): map<int, FusionEntry>
  {
    if p.chunkId in entries
    then entries[p.chunkId := entries[p.chunkId].(rrfScore := entries[p.chunkId].rrfScore + c)]
    else entries[p.chunkId := FusionEntry(p, c)]
  }

  /** The insertion order after one passage. */
  function Extend(entries: map<int, FusionEntry>, order: seq<int>, p: Passage): seq<int>
  {
    if p.chunkId in entries then order else order + [p.chunkId]
  }

  lemma HasIdAppend(s: seq<Passage>, t: seq<Passage>, id: int)
    ensures HasId(s + t, id) <==> HasId(s, id) || HasId(t, id)
  {
    if HasId(s, id) {
      var k :| 0 <= k < |s| && s[k].chunkId == id;
      assert (s + t)[k] == s[k];
    }
    if HasId(t, id) {
      var k :| 0 <= k < |t| && t[k].chunkId == id;
      assert (s + t)[|s| + k] == t[k];
    }
    if HasId(s + t, id) {
      var k :| 0 <= k < |s + t| && (s + t)[k].chunkId == id;
      if k < |s| { assert s[k] == (s + t)[k]; } else { assert t[k - |s|] == (s + t)[k]; }
    }
  }

  lemma FirstIndexIs(s: seq<Passage>, id: int, k: nat)
    requires k < |s| && s[k].chunkId == id
    requires forall j :: 0 <= j < k ==> s[j].chunkId != id
    ensures HasId(s, id) && FirstIndex(s, id) == k
  {
  }

  /** Appending passages never changes the payload a chunk was first seen
      with: in particular a BM25 hit supplies the payload of its chunk, even
      when the vector list has the chunk too. */
  lemma {:induction false} FirstOccurrencePrefix(s: seq<Passage>, t: seq<Passage>, id: int)
    requires HasId(s, id)
    ensures HasId(s + t, id) && FirstOccurrence(s + t, id) == FirstOccurrence(s, id)
  {
    var k := FirstIndex(s, id);
    forall j | 0 <= j <= k ensures (s + t)[j] == s[j] {}
    FirstIndexIs(s + t, id, k);
  }

  lemma {:induction false} FirstOccurrenceNew(s: seq<Passage>, p: Passage)
    requires !HasId(s, p.chunkId)
    ensures HasId(s + [p], p.chunkId) && FirstOccurrence(s + [p], p.chunkId) == p
  {
    forall j | 0 <= j < |s| ensures (s + [p])[j].chunkId != p.chunkId {
      assert (s + [p])[j] == s[j];
    }
    FirstIndexIs(s + [p], p.chunkId, |s|);
  }

  lemma {:induction false} FirstSeenIdsStep(s: seq<Passage>, p: Passage)
    ensures FirstSeenIds(s + [p]) == if p.chunkId in FirstSeenIds(s) then FirstSeenIds(s) else FirstSeenIds(s) + [p.chunkId]
  {
    assert (s + [p])[..|s|] == s;
  }

  lemma {:induction false} LaneScoreStep(lane: seq<Passage>, p: Passage)
    ensures forall id :: LaneScore(lane + [p], id)
                         == LaneScore(lane, id) + (if p.chunkId == id then RrfContribution(|lane|) else 0.0)
  {
    assert (lane + [p])[..|lane|] == lane;
  }

  /** A chunk id the lane does not list scores 0 on it. */
  lemma {:induction false} LaneScoreAbsent(lane: seq<Passage>, id: int)
    requires !HasId(lane, id)
    ensures LaneScore(lane, id) == 0.0
  {
    if lane != [] {
      var init := lane[..|lane| - 1];
      forall k | 0 <= k < |init| ensures init[k].chunkId != id {
        assert init[k] == lane[k];
      }
      LaneScoreAbsent(init, id);
    }
  }

  /** The bookkeeping part of one loop step: the insertion order and the
      first-seen payloads follow the walked list. */
  lemma SeenStep(seen: seq<Passage>, p: Passage, entries: map<int, FusionEntry>, order: seq<int>, c: real)
    requires SeenHolds(seen, entries, order)
    ensures SeenHolds(seen + [p], Accumulate(entries, p, c), Extend(entries, order, p))
  {
    var entries', order' := Accumulate(entries, p, c), Extend(entries, order, p);
    FirstSeenIdsStep(seen, p);
    KeysStep(entries, order, p, c, entries', order');
    assert forall id :: id in entries <==> HasId(seen, id);
    PayloadStep(seen, p, entries, c, entries');
  }

  /** The map's keys stay those of the insertion order. */
  lemma KeysStep(entries: map<int, FusionEntry>, order: seq<int>, p: Passage, c: real,
                 entries': map<int, FusionEntry>, order': seq<int>)
    requires forall id :: id in entries <==> id in order
    requires forall k :: 0 <= k < |order| ==> order[k] in entries
    requires entries' == Accumulate(entries, p, c) && order' == Extend(entries, order, p)
    ensures forall id :: id in entries' <==> id in order'
    ensures forall k :: 0 <= k < |order'| ==> order'[k] in entries'
  {
  }

  /** Each entry keeps the passage its chunk was first seen with. */
  lemma PayloadStep(seen: seq<Passage>, p: Passage, entries: map<int, FusionEntry>, c: real,
                    entries': map<int, FusionEntry>)
    requires forall id :: id in entries <==> HasId(seen, id)
    requires forall id :: id in entries ==> entries[id].passage == FirstOccurrence(seen, id)
    requires entries' == Accumulate(entries, p, c)
    ensures forall id :: id in entries' ==> HasId(seen + [p], id) && entries'[id].passage == FirstOccurrence(seen + [p], id)
  {
    forall id | id in entries' ensures HasId(seen + [p], id) && entries'[id].passage == FirstOccurrence(seen + [p], id) {
      if id in entries {
        FirstOccurrencePrefix(seen, [p], id);
      } else {
        FirstOccurrenceNew(seen, p);
      }
    }
  }

  lemma {:induction false} Bm25StepHolds(b: seq<Passage>, p: Passage, entries: map<int, FusionEntry>, order: seq<int>)
    requires MapHolds(b, [], entries, order)
    ensures MapHolds(b + [p], [], Accumulate(entries, p, RrfContribution(|b|)), Extend(entries, order, p))
  {
    var c := RrfContribution(|b|);
    assert b + [] == b;
    assert b + [p] + [] == b + [p];
    SeenStep(b, p, entries, order, c);
    LaneScoreStep(b, p);
    if p.chunkId !in entries {
      LaneScoreAbsent(b, p.chunkId);
    }
  }

  lemma {:induction false} VectorStepHolds(b: seq<Passage>, v: seq<Passage>, p: Passage,
                                      entries: map<int, FusionEntry>, order: seq<int>)
    requires MapHolds(b, v, entries, order)
    ensures MapHolds(b, v + [p], Accumulate(entries, p, RrfContribution(|v|)), Extend(entries, order, p))
  {
    var c := RrfContribution(|v|);
    var entries' := Accumulate(entries, p, c);
    assert b + (v + [p]) == b + v + [p];
    SeenStep(b + v, p, entries, order, c);
    LaneScoreStep(v, p);
    if p.chunkId !in entries {
      HasIdAppend(b, v, p.chunkId);
      LaneScoreAbsent(b, p.chunkId);
      LaneScoreAbsent(v, p.chunkId);
    }
    forall id | id in entries' ensures entries'[id].rrfScore == RrfScore(b, v + [p], id) {
      if id != p.chunkId {
        assert entries'[id] == entries[id];
      }
    }
  }

  /** One step of the `forEach` over the BM25 list. */
  lemma {:induction false} Bm25Step(b: seq<Passage>, p: Passage, b': seq<Passage>)
    requires b' == b + [p]
    ensures Accumulate(FusionMap(b, []), p, RrfContribution(|b|)) == FusionMap(b', [])
    ensures Extend(FusionMap(b, []), FirstSeenIds(b + []), p) == FirstSeenIds(b' + [])
  {
    var entries, order := FusionMap(b, []), FirstSeenIds(b + []);
    FusionMapHolds(b, []);
    Bm25StepHolds(b, p, entries, order);
    MapHoldsFusionMap(b', [], Accumulate(entries, p, RrfContribution(|b|)), Extend(entries, order, p));
  }

  /** One step of the `forEach` over the vector list. */
  lemma {:induction false} VectorStep(b: seq<Passage>, v: seq<Passage>, p: Passage, v': seq<Passage>)
    requires v' == v + [p]
    ensures Accumulate(FusionMap(b, v), p, RrfContribution(|v|)) == FusionMap(b, v')
    ensures Extend(FusionMap(b, v), FirstSeenIds(b + v), p) == FirstSeenIds(b + v')
  {
    var entries, order := FusionMap(b, v), FirstSeenIds(b + v);
    FusionMapHolds(b, v);
    VectorStepHolds(b, v, p, entries, order);
    MapHoldsFusionMap(b, v', Accumulate(entries, p, RrfContribution(|v|)), Extend(entries, order, p));
  }

  /** The body of each `forEach`: the passage at `rank` adds its
      contribution to its chunk's entry, or opens a new entry (which a `Map`
      places last in its iteration order). */
  method AddContribution(entries: map<int, FusionEntry>, order: seq<int>, p: Passage, rank: nat)
    returns (entries': map<int, FusionEntry>, order': seq<int>)
    ensures entries' == Accumulate(entries, p, RrfContribution(rank))
    ensures order' == Extend(entries, order, p)
  {
    var rrfContrib := RrfContribution(rank);
    entries', order' := entries, order;
    if p.chunkId in entries {
      var existing := entries[p.chunkId];
      entries' := entries[p.chunkId := existing.(rrfScore := existing.rrfScore + rrfContrib)];
    } else {
      entries' := entries[p.chunkId := FusionEntry(p, rrfContrib)];
      order' := order + [p.chunkId];
    }
  }

  /** lib/search-utils.ts:82-116. Two `forEach` loops fill a map keyed by
      chunk id, in insertion order; its values are then sorted by RRF score
      (stably, descending) and turned back into passages. */
  method MergeAndDeduplicate(bm25Results: seq<Passage>, vectorResults: seq<Passage>)
    returns (merged: seq<Passage>)
    ensures merged == Fused(bm25Results, vectorResults)
  {
    var entries, order := FuseBm25Lane(bm25Results);
    entries, order := FuseVectorLane(bm25Results, vectorResults, entries, order);
    var values := MapValues(entries, order);
    var sorted := StableSort.SortDesc(values, RrfKey);
    merged := StableSort.Map(sorted, EntryPassage);

    StableSort.SortDescMap(values, EntryPassage, RrfKey, ScoreKey);
    MapValuesFused(bm25Results, vectorResults);
  }

  /** The first loop of mergeAndDeduplicate (lib/search-utils.ts:90-98):
      the BM25 list's contributions, keyed by chunk id in first-seen order. */
  method FuseBm25Lane(bm25Results: seq<Passage>) returns (entries: map<int, FusionEntry>, order: seq<int>)
    ensures entries == FusionMap(bm25Results, [])
    ensures order == FirstSeenIds(bm25Results + [])
  {
    entries, order := map[], [];
    for rank := 0 to |bm25Results|
      invariant entries == FusionMap(bm25Results[..rank], [])
      invariant order == FirstSeenIds(bm25Results[..rank] + [])
    {
      var p := bm25Results[rank];
      ghost var done, next := bm25Results[..rank], bm25Results[..rank + 1];
      assert next == done + [p];
      Bm25Step(done, p, next);
      entries, order := AddContribution(entries, order, p, rank);
    }
    assert bm25Results[..|bm25Results|] == bm25Results;
  }

  /** The second loop of mergeAndDeduplicate (lib/search-utils.ts:100-108):
      the vector list's contributions added to the BM25 ones. */
  method FuseVectorLane(bm25Results: seq<Passage>, vectorResults: seq<Passage>,
                        entries0: map<int, FusionEntry>, order0: seq<int>)
    returns (entries: map<int, FusionEntry>, order: seq<int>)
    requires entries0 == FusionMap(bm25Results, [])
    requires order0 == FirstSeenIds(bm25Results + [])
    ensures entries == FusionMap(bm25Results, vectorResults)
    ensures order == FirstSeenIds(bm25Results + vectorResults)
  {
    entries, order := entries0, order0;
    assert vectorResults[..0] == [];
    for rank := 0 to |vectorResults|
      invariant entries == FusionMap(bm25Results, vectorResults[..rank])
      invariant order == FirstSeenIds(bm25Results + vectorResults[..rank])
    {
      var p := vectorResults[rank];
      ghost var done, next := vectorResults[..rank], vectorResults[..rank + 1];
      assert next == done + [p];
      VectorStep(bm25Results, done, p, next);
      entries, order := AddContribution(entries, order, p, rank);
    }
    assert vectorResults[..|vectorResults|] == vectorResults;
  }

  /** The BM25 list's chunk ids lead the first-seen order: what the vector
      list adds comes after them. */
  lemma {:induction false} FirstSeenIdsPrefix(b: seq<Passage>, v: seq<Passage>)
    ensures |FirstSeenIds(b)| <= |FirstSeenIds(b + v)|
    ensures FirstSeenIds(b + v)[..|FirstSeenIds(b)|] == FirstSeenIds(b)
    decreases |v|
  {
    if v == [] {
      assert b + v == b;
    } else {
      var init := v[..|v| - 1];
      FirstSeenIdsPrefix(b, init);
      assert b + v == (b + init) + [v[|v| - 1]];
      FirstSeenIdsStep(b + init, v[|v| - 1]);
    }
  }

  // ---------------------------------------------------------------------
  // Properties of the fused list

  function PassageChunkId(p: Passage): int
  {
    p.chunkId
  }

  function ChunkIds(ps: seq<Passage>): seq<int>
  {
    StableSort.Map(ps, PassageChunkId)
  }

  lemma {:induction false} FirstSeenPassagesIds(bm25: seq<Passage>, vector: seq<Passage>)
    ensures ChunkIds(FirstSeenPassages(bm25, vector)) == FirstSeenIds(bm25 + vector)
  {
  }

  lemma {:induction false} DistinctMultiset(ids: seq<int>, id: int)
    requires forall i, j :: 0 <= i < j < |ids| ==> ids[i] != ids[j]
    ensures multiset(ids)[id] == if id in ids then 1 else 0
  {
    if ids != [] {
      assert ids == [ids[0]] + ids[1..];
      DistinctMultiset(ids[1..], id);
      forall j | 0 <= j < |ids[1..]| ensures ids[1..][j] != ids[0] {
        assert ids[1..][j] == ids[j + 1];
      }
    }
  }

  /** Fusion is a union without duplicates: every chunk id that either lane
      lists occurs exactly once in the output, and no other id occurs. */
  lemma FusedOnePerChunk(bm25: seq<Passage>, vector: seq<Passage>, id: int)
    ensures multiset(ChunkIds(Fused(bm25, vector)))[id] == if HasId(bm25 + vector, id) then 1 else 0
  {
    var fs := FirstSeenPassages(bm25, vector);
    StableSort.SortDescMapMultiset(fs, ScoreKey, PassageChunkId);
    FirstSeenPassagesIds(bm25, vector);
    DistinctMultiset(FirstSeenIds(bm25 + vector), id);
  }

  /** Each fused passage is the first occurrence of its chunk (BM25 before
      vector), with its score replaced by the sum of its contributions from
      both lanes; the lanes' own scores play no part. */
  lemma FusedEntry(bm25: seq<Passage>, vector: seq<Passage>, k: nat)
    requires k < |Fused(bm25, vector)|
    ensures var p := Fused(bm25, vector)[k];
            HasId(bm25 + vector, p.chunkId) && p == FusedPassage(bm25, vector, p.chunkId)
  {
    var fs := FirstSeenPassages(bm25, vector);
    StableSort.SortDescCorrect(fs, ScoreKey);
    var p := Fused(bm25, vector)[k];
    assert p in multiset(fs);
    var i :| 0 <= i < |fs| && fs[i] == p;
    var ids := FirstSeenIds(bm25 + vector);
    assert ids[i] in ids;
  }

  /** The fused list is ordered by non-increasing score. */
  lemma FusedSorted(bm25: seq<Passage>, vector: seq<Passage>)
    ensures var r := Fused(bm25, vector);
            forall i, j :: 0 <= i < j < |r| ==> r[i].score >= r[j].score
  {
    var fs := FirstSeenPassages(bm25, vector);
    StableSort.SortDescCorrect(fs, ScoreKey);
    var r := Fused(bm25, vector);
    forall i, j | 0 <= i < j < |r| ensures r[i].score >= r[j].score {
      assert ScoreKey(r[i]) >= ScoreKey(r[j]);
    }
  }

  /** Ties keep first-seen order: the fused passages that share any one score
      appear in the order their chunk ids were first seen. */
  lemma FusedTiesFirstSeen(bm25: seq<Passage>, vector: seq<Passage>, score: real)
    ensures StableSort.WithKey(Fused(bm25, vector), ScoreKey, score)
            == StableSort.WithKey(FirstSeenPassages(bm25, vector), ScoreKey, score)
  {
    StableSort.SortDescStable(FirstSeenPassages(bm25, vector), ScoreKey, score);
  }

  // =====================================================================
  // classifyIntent

  /** `/^".*"$/`: at least two characters, a `"` at each end and no line
      break in between. */
  predicate IsQuoted(t: string)
  {
    && |t| >= 2 && t[0] == '"' && t[|t| - 1] == '"'
    && forall j :: 1 <= j < |t| - 1 ==> !IsLineTerminator(t[j])
  }

  /** `op` stands at index i as a whole word: `\b` on both sides. */
  predicate WholeWordAt(t: string, op: string, i: int)
  {
    && OccursAt(t, op, i)
    && (i == 0 || !IsWordChar(t[i - 1]))
    && (i + |op| == |t| || !IsWordChar(t[i + |op|]))
  }

  /** `/\b(AND|OR|NOT)\b/`: one of the upper-case operators stands somewhere
      as a whole word. */
  predicate HasBooleanOperator(t: string)
  {
    exists i :: 0 <= i < |t| && (WholeWordAt(t, "AND", i) || WholeWordAt(t, "OR", i) || WholeWordAt(t, "NOT", i))
  }

  /** The regular expression engine's scan: try each start position in turn. */
  function FindOperatorFrom(t: string, i: nat): (found: bool)
    requires i <= |t|
    ensures found <==> exists j :: i <= j < |t| && (WholeWordAt(t, "AND", j) || WholeWordAt(t, "OR", j) || WholeWordAt(t, "NOT", j))
    decreases |t| - i
  {
    if i == |t| then false
    else WholeWordAt(t, "AND", i) || WholeWordAt(t, "OR", i) || WholeWordAt(t, "NOT", i)
         || FindOperatorFrom(t, i + 1)
  }

  /** lib/search-utils.ts:118-123 */
  function ClassifyIntent(query: string): (r: QueryIntent)
    ensures r == Quote <==> IsQuoted(Trim(query))
    ensures r == Boolean <==> !IsQuoted(Trim(query)) && HasBooleanOperator(Trim(query))
    ensures r == Conceptual <==> !IsQuoted(Trim(query)) && !HasBooleanOperator(Trim(query))
  {
    var trimmed := Trim(query);
    if IsQuoted(trimmed) then Quote
    else if FindOperatorFrom(trimmed, 0) then Boolean
    else Conceptual
  }
}
