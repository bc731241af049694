/**
 * lib/tools/serper-api.ts: the web-search tool. The HTTP request itself is an
 * input (its `Outcome`); what is modelled is the key guard, the query sent,
 * the projection of the organic results and the trending-topic extraction.
 */
module SerperApi {
  import opened Wrappers
  import opened Http
  import opened Seqs
  import Text

  // ---------------------------------------------------------------------------
  // Data

  /** One entry of the response's `organic` array; a missing `date` is `""`. */
  datatype OrganicResult = OrganicResult(title: string, link: string, snippet: string, position: int, date: string)

  /** The decoded response body; `null`/absent arrays are `None`. */
  datatype SearchData = SearchData(organic: Option<seq<OrganicResult>>, relatedSearches: Option<seq<string>>)

  /** One projected result, as handed to the prompt. */
  datatype ProcessedResult = ProcessedResult(title: string, link: string, snippet: string, position: int, date: string)

  /** The three shapes of the object `search` resolves to. */
  datatype SearchResponse =
    | SearchError(error: string)          // `{error, results: []}`
    | NoResults                           // `{summary: NoResultsSummary, results: []}`
    | Found(summary: string, results: seq<ProcessedResult>, trendingTopics: seq<string>, relatedSearches: seq<string>)

  /** What one call to `search` does: the query it sends (`None`: no request) and what it resolves to. */
  datatype SearchCall = SearchCall(sentQuery: Option<string>, response: SearchResponse)

  const MissingKey := "API key is missing"
  const FetchFailed := "Failed to fetch search data: "
  const ApiError := "Serper API error: "
  const NoResultsSummary := "No relevant search results found."
  const SummaryStart := "Found "
  const SummaryMiddle := " relevant search results with "
  const SummaryEnd := " potential trending topics."
  const TopicLimit := 10

  // ---------------------------------------------------------------------------
  // Query enrichment

  /** The query sent: the first industry appended after a space, when there is one. */
  function EnrichedQuery(query: string, industries: seq<string>): string {
    if |industries| > 0 then query + " " + industries[0] else query
  }

  /**
   * The user's query always leads the sent query; it is sent unchanged
   * exactly when no industries are known, and otherwise followed by a space
   * and the first industry only.
   */
  lemma EnrichedQueryFacts(query: string, industries: seq<string>)
    ensures query <= EnrichedQuery(query, industries)
    ensures EnrichedQuery(query, industries) == query <==> industries == []
    ensures industries != [] ==>
      EnrichedQuery(query, industries)[|query|..] == " " + industries[0]
  {
    if industries != [] {
      assert |EnrichedQuery(query, industries)| > |query|;
      assert (query + " " + industries[0])[|query|..] == " " + industries[0];
    }
  }

  // ---------------------------------------------------------------------------
  // Trending topics

  /** `\w` after lower-casing: an ASCII letter, digit or underscore. */
  predicate IsWordChar(c: char) {
    ('a' <= c <= 'z') || ('A' <= c <= 'Z') || ('0' <= c <= '9') || c == '_'
  }

  /** `.replace(/[^\w\s]/g, "")`: keep word characters and whitespace, drop the rest. */
  function StripPunctuation(s: string): (r: string)
    ensures |r| <= |s|
    ensures forall i :: 0 <= i < |r| ==> IsWordChar(r[i]) || Text.IsSpace(r[i])
    ensures forall c :: c in r ==> c in s
  {
    if s == [] then []
    else if IsWordChar(s[0]) || Text.IsSpace(s[0]) then [s[0]] + StripPunctuation(s[1..])
    else StripPunctuation(s[1..])
  }

  const CommonWords := ["and", "the", "for", "with", "that", "this", "what", "how", "why"]

  /**
   * `.filter((word) => word.length > 4 && !commonWords.includes(word))`.
   * Every common word is at most four characters long, so the second test
   * never removes a word: the words kept are exactly the long ones, in order.
   */
  function LongWords(words: seq<string>): (r: seq<string>)
    ensures forall w :: w in r <==> w in words && |w| > 4
    ensures |r| <= |words|
  {
    if words == [] then []
    else
      var w := words[0];
      assert forall x :: x in words <==> x == w || x in words[1..] by {
        assert words == [w] + words[1..];
      }
      if |w| > 4 && w !in CommonWords then [w] + LongWords(words[1..]) else LongWords(words[1..])
  }

  /** Stripping works character by character: it distributes over concatenation. */
  lemma {:induction false} StripPunctuationAppend(a: string, b: string)
    ensures StripPunctuation(a + b) == StripPunctuation(a) + StripPunctuation(b)
    decreases |a|
  {
    if a == [] {
      assert a + b == b;
    } else {
      assert (a + b)[0] == a[0] && (a + b)[1..] == a[1..] + b;
      StripPunctuationAppend(a[1..], b);
    }
  }

  /**
   * One character is kept exactly when it is a word character or white space.
   * With `StripPunctuationAppend`, this fixes the result: every such character
   * is kept, in order, and nothing else.
   */
  lemma StripPunctuationChar(c: char)
    ensures StripPunctuation([c]) == if IsWordChar(c) || Text.IsSpace(c) then [c] else []
  {
    assert [c][1..] == [];
  }

  /** Filtering works word by word: it distributes over concatenation. */
  lemma {:induction false} LongWordsAppend(a: seq<string>, b: seq<string>)
    ensures LongWords(a + b) == LongWords(a) + LongWords(b)
    decreases |a|
  {
    if a == [] {
      assert a + b == b;
    } else {
      assert (a + b)[0] == a[0] && (a + b)[1..] == a[1..] + b;
      LongWordsAppend(a[1..], b);
    }
  }

  /**
   * One word is kept exactly when it is longer than four characters: no
   * common word is. With `LongWordsAppend`, this fixes the result: the long
   * words, in order, repeats included.
   */
  lemma LongWordsOne(w: string)
    ensures LongWords([w]) == if |w| > 4 then [w] else []
  {
    assert [w][0] == w && [w][1..] == [];
    if |w| > 4 {
      assert w !in CommonWords;
    }
  }

  /** The candidate topics of one title. */
  function TitleWords(title: string): seq<string> {
    LongWords(Text.Split(StripPunctuation(Text.Lower(title)), ' '))
  }

  /** Every candidate topic is a word of more than four characters without a space. */
  lemma TitleWordsShape(title: string)
    ensures forall w :: w in TitleWords(title) ==> |w| > 4 && ' ' !in w
  {
    var words := Text.Split(StripPunctuation(Text.Lower(title)), ' ');
    forall w | w in TitleWords(title)
      ensures |w| > 4 && ' ' !in w
    {
      assert w in words;
      var k :| 0 <= k < |words| && words[k] == w;
    }
  }

  /** The candidate topics of each result's title, result by result. */
  function TitleWordLists(results: seq<ProcessedResult>): (r: seq<seq<string>>)
    ensures |r| == |results|
    ensures forall i :: 0 <= i < |results| ==> r[i] == TitleWords(results[i].title)
  {
    if results == [] then [] else TitleWordLists(results[..|results| - 1]) + [TitleWords(results[|results| - 1].title)]
  }

  lemma TitleWordListsSnoc(results: seq<ProcessedResult>, i: nat)
    requires i < |results|
    ensures TitleWordLists(results[..i + 1]) == TitleWordLists(results[..i]) + [TitleWords(results[i].title)]
  {
    assert results[..i + 1][..i] == results[..i];
  }

  /** The first `n` elements, or all of them when there are fewer (`slice(0, n)`). */
  function Take<T>(s: seq<T>, n: nat): (r: seq<T>)
    ensures |r| <= n && r <= s
    ensures |r| == if |s| <= n then |s| else n
  {
    if |s| <= n then s else s[..n]
  }

  /** The first ten distinct words of `lists`, in order of first appearance. */
  function OrderedTopics(lists: seq<seq<string>>): seq<string> {
    Take(Distinct(Concat(lists)), TopicLimit)
  }

  /**
   * At most ten words, pairwise distinct, each from one of the lists; they
   * are the leading entries of the ordered union of all the words, so they
   * keep the order of first appearance, and when there are at most ten
   * distinct words every one of them is kept.
   */
  lemma OrderedTopicsFacts(lists: seq<seq<string>>)
    ensures |OrderedTopics(lists)| <= TopicLimit
    ensures NoDup(OrderedTopics(lists))
    ensures forall t :: t in OrderedTopics(lists) ==> exists i :: 0 <= i < |lists| && t in lists[i]
    ensures IsOrderedUnion(Distinct(Concat(lists)), Concat(lists))
    ensures OrderedTopics(lists) <= Distinct(Concat(lists))
    ensures |Distinct(Concat(lists))| <= TopicLimit ==>
      forall i, w :: 0 <= i < |lists| && w in lists[i] ==> w in OrderedTopics(lists)
  {
    var all := Distinct(Concat(lists));
    var r := OrderedTopics(lists);
    DistinctIsOrderedUnion(Concat(lists));
    forall i, j | 0 <= i < j < |r|
      ensures r[i] != r[j]
    {
      assert r[i] == all[i] && r[j] == all[j];
    }
    forall t | t in r
      ensures exists i :: 0 <= i < |lists| && t in lists[i]
    {
      assert t in all;
      ConcatMember(lists, t);
    }
    if |all| <= TopicLimit {
      forall i, w | 0 <= i < |lists| && w in lists[i]
        ensures w in r
      {
        ConcatMember(lists, w);
      }
    }
  }

  /** What `extractTrendingTopics` returns. */
  function TrendingTopics(results: seq<ProcessedResult>): seq<string> {
    OrderedTopics(TitleWordLists(results))
  }

  /** `extractTrendingTopics`: a `Set` filled title by title, then its first ten entries. */
  method ExtractTrendingTopics(results: seq<ProcessedResult>) returns (topics: seq<string>)
    ensures topics == TrendingTopics(results)
  {
    var seen: seq<string> := [];
    var i := 0;
    while i < |results|
      invariant 0 <= i <= |results|
      invariant seen == Distinct(Concat(TitleWordLists(results[..i])))
    {
      var words := TitleWords(results[i].title);
      TitleWordListsSnoc(results, i);
      DistinctConcatSnoc(TitleWordLists(results[..i]), words);
      seen := AppendMissing(seen, words);
      i := i + 1;
    }
    assert results[..i] == results;
    topics := if |seen| <= TopicLimit then seen else seen[..TopicLimit];
  }

  /**
   * The topics of a result list: at most ten, pairwise distinct, each a
   * space-free word of more than four characters from some result's title,
   * in order of first appearance across the titles.
   */
  lemma TrendingTopicsFacts(results: seq<ProcessedResult>)
    ensures |TrendingTopics(results)| <= TopicLimit
    ensures NoDup(TrendingTopics(results))
    ensures forall t :: t in TrendingTopics(results) ==>
      |t| > 4 && ' ' !in t && exists i :: 0 <= i < |results| && t in TitleWords(results[i].title)
    ensures TrendingTopics(results) <= Distinct(Concat(TitleWordLists(results)))
  {
    var lists := TitleWordLists(results);
    OrderedTopicsFacts(lists);
    forall t | t in TrendingTopics(results)
      ensures |t| > 4 && ' ' !in t && exists i :: 0 <= i < |results| && t in TitleWords(results[i].title)
    {
      var i :| 0 <= i < |lists| && t in lists[i];
      TitleWordsShape(results[i].title);
    }
  }

  // ---------------------------------------------------------------------------
  // processSearchResults

  /** `${n}` results with `${k}` topics, in the summary sentence. */
  function FoundSummary(n: nat, k: nat): string {
    SummaryStart + Text.NatToString(n) + SummaryMiddle + Text.NatToString(k) + SummaryEnd
  }

  /** The summary sentence states both counts unambiguously: they can be read back from it. */
  lemma FoundSummaryCounts(n1: nat, k1: nat, n2: nat, k2: nat)
    requires FoundSummary(n1, k1) == FoundSummary(n2, k2)
    ensures n1 == n2 && k1 == k2
  {
    Text.TwoCountsInTemplate(SummaryStart, SummaryMiddle, SummaryEnd, n1, k1, n2, k2);
  }

  /** One organic result as projected: every field kept, and a date that is never empty. */
  function Project(o: OrganicResult): (r: ProcessedResult)
    ensures r.title == o.title && r.link == o.link && r.snippet == o.snippet && r.position == o.position
    ensures r.date != "" && (o.date != "" ==> r.date == o.date)
  {
    ProcessedResult(o.title, o.link, o.snippet, o.position, if o.date == "" then "N/A" else o.date)
  }

  /** `data.organic.map(...)`: one projected result per organic result, in the same order. */
  function ProjectAll(organic: seq<OrganicResult>): (r: seq<ProcessedResult>)
    ensures |r| == |organic|
    ensures forall i :: 0 <= i < |organic| ==> r[i] == Project(organic[i])
  {
    if organic == [] then [] else ProjectAll(organic[..|organic| - 1]) + [Project(organic[|organic| - 1])]
  }

  /**
   * `processSearchResults`. No data, no `organic` array or an empty one give
   * the fixed no-results answer; otherwise the results are the projected
   * organic results, the topics are extracted from them, the summary counts
   * both, and the related searches are passed through (`[]` when absent).
   */
  function ProcessSearchResults(data: Option<SearchData>): (r: SearchResponse)
    ensures r.NoResults? <==> data.None? || data.value.organic.None? || data.value.organic.value == []
    ensures !r.SearchError?
    ensures r.Found? ==>
      && r.results == ProjectAll(data.value.organic.value)
      && r.trendingTopics == TrendingTopics(r.results)
      && r.summary == FoundSummary(|r.results|, |r.trendingTopics|)
      && r.relatedSearches == data.value.relatedSearches.GetOr([])
  {
    if data.None? || data.value.organic.None? || |data.value.organic.value| == 0 then NoResults
    else
      var results := ProjectAll(data.value.organic.value);
      var topics := TrendingTopics(results);
      Found(FoundSummary(|results|, |topics|), results, topics, data.value.relatedSearches.GetOr([]))
  }

  // ---------------------------------------------------------------------------
  // search

  /**
   * `SerperApiTool.search`: `outcome` is how the request would end. Without
   * a key no request is made; a non-ok status and a thrown error are both
   * caught and reported under the same prefix.
   */
  function Search(apiKey: string, query: string, industries: seq<string>, outcome: Outcome<Option<SearchData>>): SearchCall {
    if apiKey == "" then SearchCall(None, SearchError(MissingKey))
    else
      SearchCall(
        Some(EnrichedQuery(query, industries)),
        match outcome
        case Ok(data) => ProcessSearchResults(data)
        case NotOk(status, text) => SearchError(FetchFailed + ApiError + Text.NatToString(status) + " - " + text)
        case Threw(message) => SearchError(FetchFailed + message))
  }

  /**
   * A request is sent exactly when there is a key, and it carries the
   * enriched query. The answer is an error exactly when the key is missing or
   * the request fails; every failed request reports under the
   * "Failed to fetch search data: " prefix, a non-ok status with its code;
   * a successful one is the processed data.
   */
  lemma SearchFacts(apiKey: string, query: string, industries: seq<string>, outcome: Outcome<Option<SearchData>>)
    ensures Search(apiKey, query, industries, outcome).sentQuery.Some? <==> apiKey != ""
    ensures apiKey != "" ==> Search(apiKey, query, industries, outcome).sentQuery == Some(EnrichedQuery(query, industries))
    ensures Search(apiKey, query, industries, outcome).response.SearchError? <==> apiKey == "" || !outcome.Ok?
    ensures apiKey == "" ==> Search(apiKey, query, industries, outcome).response.error == MissingKey
    ensures apiKey != "" && !outcome.Ok? ==> FetchFailed <= Search(apiKey, query, industries, outcome).response.error
    ensures apiKey != "" && outcome.NotOk? ==>
      FetchFailed + ApiError + Text.NatToString(outcome.status) <= Search(apiKey, query, industries, outcome).response.error
    ensures apiKey != "" && outcome.Ok? ==> Search(apiKey, query, industries, outcome).response == ProcessSearchResults(outcome.data)
  {
    if apiKey != "" && outcome.NotOk? {
      var e := FetchFailed + ApiError + Text.NatToString(outcome.status);
      assert Search(apiKey, query, industries, outcome).response.error == e + " - " + outcome.text;
    }
  }

  /** Without a key the answer does not depend on what a request would have returned. */
  lemma SearchWithoutKey(query: string, industries: seq<string>, o1: Outcome<Option<SearchData>>, o2: Outcome<Option<SearchData>>)
    ensures Search("", query, industries, o1) == Search("", query, industries, o2)
    ensures Search("", query, industries, o1).response.SearchError?
  {
  }
}
