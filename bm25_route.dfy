/** app/api/search/bm25/route.ts: the standalone lexical search endpoint. It
    carries its own stop-word list and sanitiser (without the quote strip of
    lib/search-utils.ts), answers an empty sanitised query with no results,
    and otherwise returns the text and adjusted score of at most ten matching
    chunks, best first. The full-text index is not modelled: the rows it
    matches for the document and the sanitised query, with their raw
    `bm25()` values, are an input. */
module Bm25Route {
  import opened Types
  import opened JsText
  import SearchUtils
  import StableSort

  /** `STOP_WORDS.has(w)` (app/api/search/bm25/route.ts:5-15). */
  predicate IsStopWord(w: string)
  {
    w in {
      "a", "an", "the", "is", "are", "was", "were", "be", "been", "being",
      "do", "does", "did", "will", "would", "shall", "should", "may", "might", "can",
      "could", "has", "have", "had", "having", "i", "me", "my", "we", "our",
      "you", "your", "he", "him", "his", "she", "her", "it", "its", "they",
      "them", "their", "what", "which", "who", "whom", "this", "that", "these", "those",
      "am", "in", "on", "at", "to", "for", "of", "with", "by", "from",
      "as", "into", "about", "between", "through", "during", "before", "after", "above", "below",
      "and", "but", "or", "nor", "not", "no", "so", "if", "then", "than",
      "too", "very", "just", "where", "when", "how", "why"
    }
  }

  /** `.filter((t) => !STOP_WORDS.has(t))` against this route's list. */
  function KeptTerms(ws: seq<string>): (r: seq<string>)
    ensures forall k :: 0 <= k < |r| ==> !IsStopWord(r[k])
  {
    if ws == [] then []
    else (if IsStopWord(ws[0]) then [] else [ws[0]]) + KeptTerms(ws[1..])
  }

  /** The quoted FTS5 terms: punctuation removed, split on whitespace,
      lower-cased, stop words dropped, each term double-quoted. */
  function Terms(query: string): seq<string>
  {
    SearchUtils.QuoteAll(KeptTerms(SearchUtils.LowerAll(Words(SearchUtils.StripPunctuation(query)))))
  }

  /** app/api/search/bm25/route.ts:17-26 */
  function SanitizeFts5Query(query: string): string
  {
    Join(Terms(query), " ")
  }

  /** A row the index matches: the chunk text and its raw `bm25()` cost
      (lower is better). */
  datatype FtsRow = FtsRow(text: string, bm25: real)

  /** A row of the reply: the selected `text` and `score` columns. */
  datatype ScoredText = ScoredText(text: string, score: real)

  /** The JSON reply `{ ok, results }`. */
  datatype Response = Response(ok: bool, results: seq<ScoredText>)

  /** app/api/search/bm25/route.ts:45 */
  const ROW_LIMIT: nat := 10

  function Scored(row: FtsRow, phrase: string): ScoredText
  {
    ScoredText(row.text, SearchUtils.AdjustedScore(row.text, row.bm25, phrase))
  }

  /** Sort key for `ORDER BY score ASC`: the negated score. SQLite leaves the
      order of equal scores open; the model keeps match order for them. */
  function AscendingKey(s: ScoredText): real
  {
    -s.score
  }

  function ScoredAll(rows: seq<FtsRow>, phrase: string): (r: seq<ScoredText>)
    ensures |r| == |rows|
  {
    seq(|rows|, k requires 0 <= k < |rows| => Scored(rows[k], phrase))
  }

  function Ranked(query: string, rows: seq<FtsRow>): seq<ScoredText>
  {
    StableSort.SortDesc(ScoredAll(rows, SearchUtils.ExactPhrase(query)), AscendingKey)
  }

  /** app/api/search/bm25/route.ts:28-49, given the rows the index matches. */
  function Post(query: string, rows: seq<FtsRow>): (r: Response)
    ensures r.ok
    ensures SanitizeFts5Query(query) == "" ==> r.results == []
  {
    if SanitizeFts5Query(query) == "" then Response(true, [])
    else
      var ranked := Ranked(query, rows);
      Response(true, ranked[..if ROW_LIMIT <= |ranked| then ROW_LIMIT else |ranked|])
  }

  // =====================================================================
  // Properties

  lemma {:induction false} KeptTermsAgree(ws: seq<string>)
    ensures KeptTerms(ws) == SearchUtils.RemoveStopWords(ws)
    decreases |ws|
  {
    if ws != [] {
      KeptTermsAgree(ws[1..]);
    }
  }

  /** This route's sanitiser agrees with the one in lib/search-utils.ts on
      every query: its stop-word list is the same set, and the quote strip it
      lacks removes only `"` characters, which the punctuation strip removes
      anyway. */
  lemma SanitizerAgrees(query: string)
    ensures SanitizeFts5Query(query) == SearchUtils.SanitizeFts5Query(query)
  {
    SearchUtils.StripEnclosingQuotesSubsumed(query);
    KeptTermsAgree(SearchUtils.LowerAll(Words(SearchUtils.StripPunctuation(query))));
  }

  /** A string of word characters and spaces has nothing to strip. */
  lemma {:induction false} NothingToStrip(s: string)
    requires forall j :: 0 <= j < |s| ==> IsWordChar(s[j]) || s[j] == ' '
    ensures SearchUtils.StripPunctuation(s) == s
  {
    if s != [] {
      NothingToStrip(s[1..]);
      assert s == [s[0]] + s[1..];
    }
  }

  /** A non-empty run of word characters is a word. */
  lemma WordOfWordChars(w: string)
    requires w != [] && forall j :: 0 <= j < |w| ==> IsWordChar(w[j])
    ensures IsWord(w)
  {
    forall j | 0 <= j < |w| ensures !IsSpace(w[j]) {
      assert IsWordChar(w[j]);
    }
  }

  /** Upper-case operators are words like any other: lower-cased, "AND" is
      the stop word "and", so "courage AND lion" asks for both terms, with
      no operator. */
  lemma OperatorsAreStopWords()
    ensures SanitizeFts5Query("courage AND lion") == "\"courage\" \"lion\""
  {
    ExampleStrip();
    ExampleWords();
    ExampleLower();
    ExampleKept();
    ExampleQuoted();
    ExampleJoined();
  }

  lemma ExampleStrip()
    ensures SearchUtils.StripPunctuation("courage AND lion") == "courage AND lion"
  {
    NothingToStrip("courage AND lion");
  }

  lemma ExampleWords()
    ensures Words("courage AND lion") == ["courage", "AND", "lion"]
  {
    var ws := ["courage", "AND", "lion"];
    assert ws[1..] == ["AND", "lion"] && ws[1..][1..] == ["lion"];
    assert Join(ws, " ") == "courage AND lion";
    WordOfWordChars(ws[0]);
    WordOfWordChars(ws[1]);
    WordOfWordChars(ws[2]);
    WordsOfJoin(ws);
  }

  lemma ExampleLower()
    ensures SearchUtils.LowerAll(["courage", "AND", "lion"]) == ["courage", "and", "lion"]
  {
    var lowered := SearchUtils.LowerAll(["courage", "AND", "lion"]);
    assert lowered[0] == Lower("courage") == "courage";
    assert lowered[1] == Lower("AND") == "and";
    assert lowered[2] == Lower("lion") == "lion";
  }

  lemma ExampleKept()
    ensures KeptTerms(["courage", "and", "lion"]) == ["courage", "lion"]
  {
    var ws := ["courage", "and", "lion"];
    assert ws[1..] == ["and", "lion"] && ws[1..][1..] == ["lion"] && ws[1..][1..][1..] == [];
    assert !IsStopWord("courage") && IsStopWord("and") && !IsStopWord("lion");
  }

  lemma ExampleQuoted()
    ensures SearchUtils.QuoteAll(["courage", "lion"]) == ["\"courage\"", "\"lion\""]
  {
    var quoted := SearchUtils.QuoteAll(["courage", "lion"]);
    assert quoted[0] == "\"courage\"";
    assert quoted[1] == "\"lion\"";
  }

  lemma ExampleJoined()
    ensures Join(["\"courage\"", "\"lion\""], " ") == "\"courage\" \"lion\""
  {
    var ws := ["\"courage\"", "\"lion\""];
    assert ws[1..] == ["\"lion\""];
  }

  /** The sanitised query is empty exactly when no term survives. */
  lemma SanitizedEmptyIff(query: string)
    ensures SanitizeFts5Query(query) == "" <==> Terms(query) == []
  {
    var toks := Terms(query);
    forall k | 0 <= k < |toks| ensures toks[k] != [] {
      assert |toks[k]| >= 2;
    }
    JoinEmptyIff(toks, " ");
  }

  /** With nothing left to match (no word, or only stop words), the reply is
      `{ ok: true, results: [] }` whatever the index holds; otherwise it is
      empty only when nothing matched. */
  lemma EmptyQueryShortCircuit(query: string, rows: seq<FtsRow>)
    ensures Post(query, rows).results == [] <==> Terms(query) == [] || rows == []
  {
    SanitizedEmptyIff(query);
    StableSort.SortDescCorrect(ScoredAll(rows, SearchUtils.ExactPhrase(query)), AscendingKey);
  }

  /** A prefix of a list sorted by ascending score is ascending and scores
      no higher than anything after it. */
  lemma AscendingPrefix(ranked: seq<ScoredText>, r: seq<ScoredText>)
    requires StableSort.SortedDesc(ranked, AscendingKey)
    requires |r| <= |ranked| && r == ranked[..|r|]
    ensures forall i, j :: 0 <= i < j < |r| ==> r[i].score <= r[j].score
    ensures forall i, j :: 0 <= i < |r| <= j < |ranked| ==> r[i].score <= ranked[j].score
  {
    forall i, j | 0 <= i < |r| <= j < |ranked| ensures r[i].score <= ranked[j].score {
      assert AscendingKey(ranked[i]) >= AscendingKey(ranked[j]);
    }
    forall i, j | 0 <= i < j < |r| ensures r[i].score <= r[j].score {
      assert AscendingKey(ranked[i]) >= AscendingKey(ranked[j]);
    }
  }

  /** Every row of a rearrangement of the scored matches is a matched row
      with its bonus applied. */
  lemma RowsAreMatches(rows: seq<FtsRow>, phrase: string, ranked: seq<ScoredText>, k: nat)
    requires multiset(ranked) == multiset(ScoredAll(rows, phrase)) && k < |ranked|
    ensures exists row :: row in rows && ranked[k].text == row.text
              && ranked[k].score == (if Contains(Lower(row.text), phrase)
                                     then row.bm25 - SearchUtils.PHRASE_BONUS else row.bm25)
  {
    var scored := ScoredAll(rows, phrase);
    assert ranked[k] in multiset(scored);
    var i :| 0 <= i < |scored| && scored[i] == ranked[k];
    assert rows[i] in rows;
  }

  /** The ranking: at most ten rows, ascending by adjusted score; each is a
      matched row whose score is its `bm25()` value less 5.0 exactly when its
      lower-cased text contains the bonus phrase; and they are the best of
      the matches: every match left out scores no better than every one
      kept. */
  lemma Ranking(query: string, rows: seq<FtsRow>, ranked: seq<ScoredText>, r: seq<ScoredText>)
    requires Terms(query) != []
    requires ranked == Ranked(query, rows)
    requires r == Post(query, rows).results
    ensures |r| == if |rows| < ROW_LIMIT then |rows| else ROW_LIMIT
    ensures forall i, j :: 0 <= i < j < |r| ==> r[i].score <= r[j].score
    ensures multiset(ranked) == multiset(ScoredAll(rows, SearchUtils.ExactPhrase(query))) && r == ranked[..|r|]
    ensures forall i, j :: 0 <= i < |r| <= j < |ranked| ==> r[i].score <= ranked[j].score
    ensures forall k :: 0 <= k < |r| ==>
              exists row :: row in rows && r[k].text == row.text
                && r[k].score == (if Contains(Lower(row.text), SearchUtils.ExactPhrase(query))
                                  then row.bm25 - SearchUtils.PHRASE_BONUS else row.bm25)
  {
    var phrase := SearchUtils.ExactPhrase(query);
    SanitizedEmptyIff(query);
    StableSort.SortDescCorrect(ScoredAll(rows, phrase), AscendingKey);
    AscendingPrefix(ranked, r);
    forall k | 0 <= k < |r|
      ensures exists row :: row in rows && r[k].text == row.text
                && r[k].score == (if Contains(Lower(row.text), phrase)
                                  then row.bm25 - SearchUtils.PHRASE_BONUS else row.bm25)
    {
      RowsAreMatches(rows, phrase, ranked, k);
    }
  }
}
