/**
 * lib/tools/news-api.ts: the news tool. The HTTP request is an input (its
 * `Outcome`); what is modelled is the query sent, the projection of the
 * articles and their grouping by topic.
 */
module NewsApi {
  import opened Wrappers
  import opened Http
  import Text

  // ---------------------------------------------------------------------------
  // Data

  /** An article as the API returns it; `source` is `None` when the source object is missing. */
  datatype RawArticle = RawArticle(title: string, source: Option<string>, publishedAt: string, url: string, description: string)

  /** A projected article; `source` is the source's name. */
  datatype Article = Article(title: string, source: string, publishedAt: string, url: string, description: string)

  type Topics = map<string, seq<Article>>

  /** The shapes of the object `fetchNews` resolves to. */
  datatype NewsResponse =
    | NewsError                           // `{error: FetchFailed, articles: []}`
    | NoArticles                          // `{summary: NoArticlesSummary, articles: []}`
    | NewsFound(summary: string, articles: seq<Article>, topics: Topics)

  /** What one call to `fetchNews` does: the query it sends and what it resolves to. */
  datatype NewsCall = NewsCall(sentQuery: string, response: NewsResponse)

  const FetchFailed := "Failed to fetch news data"
  const NoArticlesSummary := "No relevant news articles found."
  const SummaryStart := "Found "
  const SummaryMiddle := " relevant news articles across "
  const SummaryEnd := " topics."

  // ---------------------------------------------------------------------------
  // Query enrichment

  /** The query sent: the industries appended, joined by " OR ", when there are any. */
  function EnrichedQuery(query: string, industries: seq<string>): string {
    if |industries| > 0 then query + " " + Text.Join(industries, " OR ") else query
  }

  /**
   * The user's query always leads the sent query; it is sent unchanged
   * exactly when no industries are known, and otherwise followed by a space
   * and every industry, " OR " between neighbours.
   */
  lemma EnrichedQueryFacts(query: string, industries: seq<string>)
    ensures query <= EnrichedQuery(query, industries)
    ensures EnrichedQuery(query, industries) == query <==> industries == []
    ensures industries != [] ==>
      EnrichedQuery(query, industries)[|query|..] == " " + Text.Join(industries, " OR ")
  {
    if industries != [] {
      var tail := " " + Text.Join(industries, " OR ");
      assert EnrichedQuery(query, industries) == query + tail;
      assert |EnrichedQuery(query, industries)| > |query|;
      assert (query + tail)[|query|..] == tail;
    }
  }

  // ---------------------------------------------------------------------------
  // The main topic of a title

  const StopWords := ["about", "these", "those", "their", "there"]

  /**
   * `words.filter((word) => word.length > 5 && !stopWords.includes(word))`.
   * Every stop word is five characters long, so the second test never
   * removes a word: the words kept are exactly the long ones, in order.
   */
  function PotentialTopics(words: seq<string>): (r: seq<string>)
    ensures forall w :: w in r <==> w in words && |w| > 5
  {
    if words == [] then []
    else
      var w := words[0];
      assert forall x :: x in words <==> x == w || x in words[1..] by {
        assert words == [w] + words[1..];
      }
      if |w| > 5 && w !in StopWords then [w] + PotentialTopics(words[1..]) else PotentialTopics(words[1..])
  }

  /** There is a potential topic exactly when some word is longer than five characters. */
  lemma PotentialTopicsNonEmpty(words: seq<string>)
    ensures PotentialTopics(words) != [] <==> exists k :: 0 <= k < |words| && |words[k]| > 5
  {
    var r := PotentialTopics(words);
    if exists k :: 0 <= k < |words| && |words[k]| > 5 {
      var k :| 0 <= k < |words| && |words[k]| > 5;
      assert words[k] in r;
    }
    if r != [] {
      assert r[0] in r;
    }
  }

  /** The first potential topic is the first word longer than five characters. */
  lemma {:induction false} FirstPotentialTopic(words: seq<string>)
    ensures PotentialTopics(words) != [] ==>
      exists k :: 0 <= k < |words| && words[k] == PotentialTopics(words)[0] && |words[k]| > 5
        && forall j :: 0 <= j < k ==> |words[j]| <= 5
  {
    var r := PotentialTopics(words);
    if words != [] && r != [] {
      if |words[0]| > 5 {
        assert words[0] !in StopWords;
        assert r[0] == words[0];
      } else {
        assert r == PotentialTopics(words[1..]);
        FirstPotentialTopic(words[1..]);
        var k :| 0 <= k < |words[1..]| && words[1..][k] == r[0] && |words[1..][k]| > 5
          && forall j :: 0 <= j < k ==> |words[1..][j]| <= 5;
        assert words[k + 1] == r[0];
        forall j | 0 <= j < k + 1
          ensures |words[j]| <= 5
        {
          if j > 0 {
            assert words[j] == words[1..][j - 1];
          }
        }
      }
    }
  }

  /** `article.title.toLowerCase().split(" ")`. */
  function TitleWords(title: string): seq<string> {
    Text.Split(Text.Lower(title), ' ')
  }

  /** `potentialTopics[0]`, when there is one. */
  function MainTopic(title: string): Option<string> {
    var topics := PotentialTopics(TitleWords(title));
    if |topics| > 0 then Some(topics[0]) else None
  }

  /**
   * A title has no main topic exactly when none of its words is longer than
   * five characters; otherwise its main topic is the first such word, and
   * holds no space.
   */
  lemma MainTopicFacts(title: string)
    ensures MainTopic(title).None? <==> forall w :: w in TitleWords(title) ==> |w| <= 5
    ensures MainTopic(title).Some? ==>
      var words := TitleWords(title);
      && |MainTopic(title).value| > 5
      && ' ' !in MainTopic(title).value
      && exists k :: 0 <= k < |words| && words[k] == MainTopic(title).value
           && forall j :: 0 <= j < k ==> |words[j]| <= 5
  {
    var words := TitleWords(title);
    PotentialTopicsNonEmpty(words);
    FirstPotentialTopic(words);
    if MainTopic(title).None? {
      forall w | w in words
        ensures |w| <= 5
      {
        var k :| 0 <= k < |words| && words[k] == w;
      }
    }
  }

  // ---------------------------------------------------------------------------
  // Grouping by topic, stated for any key function

  /** The elements of `xs` whose key is `t`, in input order: what the bucket for `t` should hold. */
  function Bucket<A(==,!new)>(xs: seq<A>, key: A -> Option<string>, t: string): (r: seq<A>)
    ensures |r| <= |xs|
    ensures forall a :: a in r <==> a in xs && key(a) == Some(t)
  {
    if xs == [] then []
    else
      var init, a := xs[..|xs| - 1], xs[|xs| - 1];
      assert xs == init + [a];
      if key(a) == Some(t) then Bucket(init, key, t) + [a] else Bucket(init, key, t)
  }

  /** Buckets distribute over concatenation: each keeps the input order. */
  lemma {:induction false} BucketAppend<A(!new)>(xs: seq<A>, ys: seq<A>, key: A -> Option<string>, t: string)
    ensures Bucket(xs + ys, key, t) == Bucket(xs, key, t) + Bucket(ys, key, t)
    decreases |ys|
  {
    if ys == [] {
      assert xs + ys == xs;
    } else {
      var ys', y := ys[..|ys| - 1], ys[|ys| - 1];
      BucketAppend(xs, ys', key, t);
      var zs := xs + ys;
      assert zs[..|zs| - 1] == xs + ys' && zs[|zs| - 1] == y;
      if key(y) == Some(t) {
        assert Bucket(zs, key, t) == Bucket(xs + ys', key, t) + [y];
        assert Bucket(ys, key, t) == Bucket(ys', key, t) + [y];
      } else {
        assert Bucket(zs, key, t) == Bucket(xs + ys', key, t);
        assert Bucket(ys, key, t) == Bucket(ys', key, t);
      }
    }
  }

  /** The record the grouping loop builds, as a fold: each element appended to its key's bucket. */
  function GroupBy<A>(xs: seq<A>, key: A -> Option<string>): map<string, seq<A>> {
    if xs == [] then map[]
    else
      var g, a := GroupBy(xs[..|xs| - 1], key), xs[|xs| - 1];
      match key(a)
      case None => g
      case Some(t) => g[t := (if t in g then g[t] else []) + [a]]
  }

  /**
   * The record has a key for exactly the keys that occur, and each key's
   * bucket holds exactly the elements with that key, in input order; so no
   * element is in two buckets and none is in a bucket not its own.
   */
  lemma {:induction false} GroupIsBuckets<A(!new)>(xs: seq<A>, key: A -> Option<string>)
    ensures forall t :: t in GroupBy(xs, key) <==> Bucket(xs, key, t) != []
    ensures forall t :: t in GroupBy(xs, key) ==> GroupBy(xs, key)[t] == Bucket(xs, key, t)
  {
    if xs != [] {
      GroupIsBuckets(xs[..|xs| - 1], key);
    }
  }

  /** The number of elements that have a key. */
  function PlacedCount<A>(xs: seq<A>, key: A -> Option<string>): (n: nat)
    ensures n <= |xs|
  {
    if xs == [] then 0
    else PlacedCount(xs[..|xs| - 1], key) + if key(xs[|xs| - 1]).Some? then 1 else 0
  }

  /** The number of elements over all buckets. */
  ghost function TotalSize<A>(m: map<string, seq<A>>): nat
    decreases |m.Keys|
  {
    if m == map[] then 0
    else
      var k :| k in m;
      assert m.Keys == (m - {k}).Keys + {k};
      |m[k]| + TotalSize(m - {k})
  }

  lemma {:induction false} TotalSizeRemove<A>(m: map<string, seq<A>>, k: string)
    requires k in m
    ensures TotalSize(m) == |m[k]| + TotalSize(m - {k})
    decreases |m.Keys|
  {
    var k' :| k' in m && TotalSize(m) == |m[k']| + TotalSize(m - {k'});
    if k' != k {
      assert m.Keys == (m - {k}).Keys + {k};
      assert (m - {k}).Keys == (m - {k} - {k'}).Keys + {k'};
      TotalSizeRemove(m - {k'}, k);
      TotalSizeRemove(m - {k}, k');
      assert m - {k'} - {k} == m - {k} - {k'};
    }
  }

  /**
   * Counted over all buckets, every element with a key appears once and the
   * others not at all, so the buckets together hold at most as many elements
   * as the input.
   */
  lemma {:induction false} GroupTotal<A>(xs: seq<A>, key: A -> Option<string>)
    ensures TotalSize(GroupBy(xs, key)) == PlacedCount(xs, key) <= |xs|
  {
    if xs != [] {
      var init, a := xs[..|xs| - 1], xs[|xs| - 1];
      var g := GroupBy(init, key);
      GroupTotal(init, key);
      if key(a).Some? {
        var t := key(a).value;
        var g' := GroupBy(xs, key);
        assert g' == g[t := (if t in g then g[t] else []) + [a]];
        TotalSizeRemove(g', t);
        if t in g {
          TotalSizeRemove(g, t);
          assert g' - {t} == g - {t};
        } else {
          assert g' - {t} == g;
        }
      }
    }
  }

  // ---------------------------------------------------------------------------
  // groupArticlesByTopic

  /** An article's bucket key: the main topic of its title. */
  function TopicOf(a: Article): Option<string> {
    MainTopic(a.title)
  }

  /** The topics record, as intended. */
  function Group(articles: seq<Article>): Topics {
    GroupBy(articles, TopicOf)
  }

  /**
   * The loop of `groupArticlesByTopic`, for any key: a record of buckets,
   * each created on first use and appended to.
   */
  method GroupByKey<A>(xs: seq<A>, key: A -> Option<string>) returns (topics: map<string, seq<A>>)
    ensures topics == GroupBy(xs, key)
  {
    topics := map[];
    var i := 0;
    while i < |xs|
      invariant 0 <= i <= |xs|
      invariant topics == GroupBy(xs[..i], key)
    {
      assert xs[..i + 1][..i] == xs[..i];
      var mainTopic := key(xs[i]);
      if mainTopic.Some? {
        if mainTopic.value !in topics {
          topics := topics[mainTopic.value := []];
        }
        topics := topics[mainTopic.value := topics[mainTopic.value] + [xs[i]]];
      }
      i := i + 1;
    }
    assert xs[..i] == xs;
  }

  /** `groupArticlesByTopic`: each article filed under the main topic of its title. */
  method GroupArticlesByTopic(articles: seq<Article>) returns (topics: Topics)
    ensures topics == Group(articles)
  {
    topics := GroupByKey(articles, TopicOf);
  }

  // ---------------------------------------------------------------------------
  // The grouping as written: a plain object record

  /**
   * Keys a plain `{}` already answers through its prototype among the words
   * a lower-cased title can produce: the only all-lower-case members of
   * `Object.prototype`.
   */
  predicate Inherited(t: string) {
    t == "constructor" || t == "__proto__"
  }

  /**
   * The grouping loop over a plain object: `topics[t]` on an inherited key is
   * truthy, so no bucket is created, and `.push` is not a function there:
   * the call throws (`None`).
   */
  function GroupByAsWritten<A>(xs: seq<A>, key: A -> Option<string>): Option<map<string, seq<A>>> {
    if xs == [] then Some(map[])
    else
      var prev, a := GroupByAsWritten(xs[..|xs| - 1], key), xs[|xs| - 1];
      if prev.None? then None
      else
        var g := prev.value;
        match key(a)
        case None => Some(g)
        case Some(t) =>
          if t in g then Some(g[t := g[t] + [a]])
          else if Inherited(t) then None
          else Some(g[t := [a]])
  }

  /** Some element's key is an inherited member. */
  predicate HitsPrototype<A>(xs: seq<A>, key: A -> Option<string>) {
    exists i :: 0 <= i < |xs| && key(xs[i]).Some? && Inherited(key(xs[i]).value)
  }

  /** One more element hits the prototype exactly when the earlier ones did or its own key is inherited. */
  lemma HitsPrototypeSnoc<A>(xs: seq<A>, key: A -> Option<string>)
    requires xs != []
    ensures var init, a := xs[..|xs| - 1], xs[|xs| - 1];
      HitsPrototype(xs, key) <==> HitsPrototype(init, key) || (key(a).Some? && Inherited(key(a).value))
  {
    var init, a := xs[..|xs| - 1], xs[|xs| - 1];
    if HitsPrototype(init, key) {
      var i :| 0 <= i < |init| && key(init[i]).Some? && Inherited(key(init[i]).value);
      assert xs[i] == init[i];
    }
    if HitsPrototype(xs, key) {
      var i :| 0 <= i < |xs| && key(xs[i]).Some? && Inherited(key(xs[i]).value);
      if i < |init| {
        assert init[i] == xs[i];
      }
    }
  }

  /** A record key that is inherited comes from some element whose key it is. */
  lemma InheritedKeyHits<A(!new)>(xs: seq<A>, key: A -> Option<string>)
    ensures forall t :: t in GroupBy(xs, key) && Inherited(t) ==> HitsPrototype(xs, key)
  {
    GroupIsBuckets(xs, key);
    forall t | t in GroupBy(xs, key) && Inherited(t)
      ensures HitsPrototype(xs, key)
    {
      var b := Bucket(xs, key, t)[0];
      assert b in Bucket(xs, key, t);
      var j :| 0 <= j < |xs| && xs[j] == b;
      assert key(xs[j]) == Some(t);
    }
  }

  /**
   * The code as written throws exactly when some key is an inherited member,
   * and otherwise builds the intended record.
   */
  lemma {:induction false} GroupAsWrittenAgrees<A(!new)>(xs: seq<A>, key: A -> Option<string>)
    ensures GroupByAsWritten(xs, key).None? <==> HitsPrototype(xs, key)
    ensures !HitsPrototype(xs, key) ==> GroupByAsWritten(xs, key) == Some(GroupBy(xs, key))
  {
    if xs != [] {
      var init, a := xs[..|xs| - 1], xs[|xs| - 1];
      GroupAsWrittenAgrees(init, key);
      HitsPrototypeSnoc(xs, key);
      InheritedKeyHits(init, key);
      assert [] + [a] == [a];
    }
  }

  /** `groupArticlesByTopic` as written. */
  function GroupAsWritten(articles: seq<Article>): Option<Topics> {
    GroupByAsWritten(articles, TopicOf)
  }

  /** A single element whose key is inherited: filed under that key as intended, a throw as written. */
  lemma SingleInherited<A>(a: A, key: A -> Option<string>, t: string)
    requires key(a) == Some(t) && Inherited(t)
    ensures GroupBy([a], key) == map[t := [a]]
    ensures GroupByAsWritten([a], key).None?
  {
    assert [a][..0] == [] && [a][0] == a;
    assert [] + [a] == [a];
  }

  /** A title whose lower case is one long word has that word as its main topic. */
  lemma OneWordTopic(title: string, w: string)
    requires Text.Lower(title) == w && ' ' !in w && |w| > 5
    ensures MainTopic(title) == Some(w)
  {
    Text.SplitWithoutSep(w, ' ');
    assert w !in StopWords;
    assert PotentialTopics([w]) == [w] + PotentialTopics([]);
  }

  /**
   * A headline that is the word "constructor" in any letter case: the intended
   * grouping files it under "constructor", while the code as written throws,
   * and the request then answers with the fetch error.
   */
  lemma ConstructorHeadline(a: Article)
    requires Text.Lower(a.title) == "constructor"
    ensures TopicOf(a) == Some("constructor")
    ensures Group([a]) == map["constructor" := [a]]
    ensures GroupAsWritten([a]).None?
  {
    OneWordTopic(a.title, "constructor");
    SingleInherited(a, TopicOf, "constructor");
  }

  // ---------------------------------------------------------------------------
  // processNewsResults and fetchNews

  /** The projection of one article; it reads `article.source.name`. */
  function ProjectArticle(a: RawArticle): Article
    requires a.source.Some?
  {
    Article(a.title, a.source.value, a.publishedAt, a.url, a.description)
  }

  /**
   * `articles.map(...)`: `None` when some article has no source object (the
   * projection throws), otherwise one projected article per input, in order.
   */
  function ProjectArticles(raw: seq<RawArticle>): (r: Option<seq<Article>>)
    ensures r.Some? <==> forall i :: 0 <= i < |raw| ==> raw[i].source.Some?
    ensures r.Some? ==> |r.value| == |raw|
    ensures r.Some? ==> forall i :: 0 <= i < |raw| ==> r.value[i] == ProjectArticle(raw[i])
  {
    if raw == [] then Some([])
    else
      var init, a := raw[..|raw| - 1], raw[|raw| - 1];
      var prev := ProjectArticles(init);
      if prev.None? || a.source.None? then
        assert a.source.None? ==> !raw[|raw| - 1].source.Some?;
        assert prev.None? ==> exists i :: 0 <= i < |init| && !init[i].source.Some?;
        None
      else
        Some(prev.value + [ProjectArticle(a)])
  }

  function NewsSummary(articleCount: nat, topicCount: nat): string {
    SummaryStart + Text.NatToString(articleCount) + SummaryMiddle + Text.NatToString(topicCount) + SummaryEnd
  }

  /** The summary sentence states both counts unambiguously: they can be read back from it. */
  lemma NewsSummaryCounts(n1: nat, k1: nat, n2: nat, k2: nat)
    requires NewsSummary(n1, k1) == NewsSummary(n2, k2)
    ensures n1 == n2 && k1 == k2
  {
    Text.TwoCountsInTemplate(SummaryStart, SummaryMiddle, SummaryEnd, n1, k1, n2, k2);
  }

  /**
   * `processNewsResults`, with the grouping corrected. A thrown projection
   * is answered by `fetchNews`'s catch, so it appears here as `NewsError`.
   */
  function ProcessNewsResults(articles: Option<seq<RawArticle>>): NewsResponse {
    if articles.None? || |articles.value| == 0 then NoArticles
    else
      match ProjectArticles(articles.value)
      case None => NewsError
      case Some(processed) =>
        var topics := Group(processed);
        NewsFound(NewsSummary(|articles.value|, |topics.Keys|), processed, topics)
  }

  /** `NewsApiTool.fetchNews`: `outcome` is how the request would end; every failure is caught. */
  function FetchNews(query: string, industries: seq<string>, outcome: Outcome<Option<seq<RawArticle>>>): NewsCall {
    NewsCall(
      EnrichedQuery(query, industries),
      match outcome
      case Ok(articles) => ProcessNewsResults(articles)
      case _ => NewsError)
  }

  /**
   * The request always carries the enriched query. The answer is the fetch
   * error exactly when the request fails or some article lacks a source;
   * no articles give the fixed no-articles answer; otherwise every article
   * is kept in order, grouped as above, and the summary counts the articles
   * and the topics.
   */
  lemma FetchNewsFacts(query: string, industries: seq<string>, outcome: Outcome<Option<seq<RawArticle>>>)
    ensures FetchNews(query, industries, outcome).sentQuery == EnrichedQuery(query, industries)
    ensures var r := FetchNews(query, industries, outcome).response;
      && (r.NewsError? <==>
            !outcome.Ok?
            || (outcome.data.Some? && exists i :: 0 <= i < |outcome.data.value| && outcome.data.value[i].source.None?))
      && (r.NoArticles? <==> outcome.Ok? && (outcome.data.None? || outcome.data.value == []))
      && (r.NewsFound? ==>
            && |r.articles| == |outcome.data.value|
            && (forall i :: 0 <= i < |r.articles| ==> r.articles[i] == ProjectArticle(outcome.data.value[i]))
            && r.topics == Group(r.articles)
            && r.summary == NewsSummary(|r.articles|, |r.topics.Keys|))
  {
  }

  // ---------------------------------------------------------------------------
  // processNewsResults and fetchNews as written

  /** Some article's title has an inherited member as its main topic. */
  predicate InheritedTitle(raw: seq<RawArticle>) {
    exists i :: 0 <= i < |raw| && MainTopic(raw[i].title).Some? && Inherited(MainTopic(raw[i].title).value)
  }

  /**
   * `processNewsResults` over the plain-object record: a throwing grouping
   * reaches `fetchNews`'s catch like a throwing projection.
   */
  function ProcessNewsResultsAsWritten(articles: Option<seq<RawArticle>>): NewsResponse {
    if articles.None? || |articles.value| == 0 then NoArticles
    else
      match ProjectArticles(articles.value)
      case None => NewsError
      case Some(processed) =>
        match GroupAsWritten(processed)
        case None => NewsError
        case Some(topics) => NewsFound(NewsSummary(|articles.value|, |topics.Keys|), processed, topics)
  }

  /** `NewsApiTool.fetchNews` as written. */
  function FetchNewsAsWritten(query: string, industries: seq<string>, outcome: Outcome<Option<seq<RawArticle>>>): NewsCall {
    NewsCall(
      EnrichedQuery(query, industries),
      match outcome
      case Ok(articles) => ProcessNewsResultsAsWritten(articles)
      case _ => NewsError)
  }

  /** The projected articles hit the prototype exactly when some raw title has an inherited main topic. */
  lemma ProjectedHitsPrototype(raw: seq<RawArticle>)
    requires ProjectArticles(raw).Some?
    ensures HitsPrototype(ProjectArticles(raw).value, TopicOf) <==> InheritedTitle(raw)
  {
    var processed := ProjectArticles(raw).value;
    if HitsPrototype(processed, TopicOf) {
      var i :| 0 <= i < |processed| && TopicOf(processed[i]).Some? && Inherited(TopicOf(processed[i]).value);
      assert processed[i].title == raw[i].title;
    }
    if InheritedTitle(raw) {
      var i :| 0 <= i < |raw| && MainTopic(raw[i].title).Some? && Inherited(MainTopic(raw[i].title).value);
      assert processed[i].title == raw[i].title;
    }
  }

  /**
   * Once every article is projected, the as-written answer is the fetch error
   * exactly when some title's main topic is inherited, and otherwise the
   * corrected answer.
   */
  lemma ProcessAsWrittenAgrees(raw: seq<RawArticle>)
    requires ProjectArticles(raw).Some?
    ensures ProcessNewsResultsAsWritten(Some(raw)).NewsError? <==> InheritedTitle(raw)
    ensures !InheritedTitle(raw) ==> ProcessNewsResultsAsWritten(Some(raw)) == ProcessNewsResults(Some(raw))
  {
    if raw != [] {
      var processed := ProjectArticles(raw).value;
      ProjectedHitsPrototype(raw);
      GroupAsWrittenAgrees(processed, TopicOf);
      if InheritedTitle(raw) {
        assert GroupAsWritten(processed).None?;
      } else {
        assert GroupAsWritten(processed) == Some(Group(processed));
      }
    }
  }

  /**
   * As written, the answer is the fetch error exactly when the request fails,
   * some article lacks a source, or some title's main topic is an inherited
   * member of a plain object; in every other case it is the corrected answer.
   */
  lemma FetchNewsAsWrittenFacts(query: string, industries: seq<string>, outcome: Outcome<Option<seq<RawArticle>>>)
    ensures FetchNewsAsWritten(query, industries, outcome).sentQuery == EnrichedQuery(query, industries)
    ensures FetchNewsAsWritten(query, industries, outcome).response.NewsError? <==>
      !outcome.Ok?
      || (outcome.data.Some?
          && ((exists i :: 0 <= i < |outcome.data.value| && outcome.data.value[i].source.None?)
              || InheritedTitle(outcome.data.value)))
    ensures !(outcome.Ok? && outcome.data.Some? && InheritedTitle(outcome.data.value)) ==>
      FetchNewsAsWritten(query, industries, outcome) == FetchNews(query, industries, outcome)
  {
    if outcome.Ok? && outcome.data.Some? && ProjectArticles(outcome.data.value).Some? {
      ProcessAsWrittenAgrees(outcome.data.value);
    }
  }

  /**
   * The finding end to end: a fetched headline "Constructor" with a source
   * is answered with the fetch error as written, and grouped as intended.
   */
  lemma ConstructorHeadlineFetch(query: string, industries: seq<string>, raw: RawArticle)
    requires raw.source.Some? && Text.Lower(raw.title) == "constructor"
    ensures FetchNewsAsWritten(query, industries, Ok(Some([raw]))).response == NewsError
    ensures var r := FetchNews(query, industries, Ok(Some([raw]))).response;
      r.NewsFound? && r.topics == map["constructor" := r.articles] && |r.articles| == 1
  {
    var a := ProjectArticle(raw);
    assert ProjectArticles([raw]) == Some([a]) by {
      assert [raw][..0] == [] && [raw][0] == raw;
      assert ProjectArticles([]) == Some([]);
      assert [] + [a] == [a];
    }
    ConstructorHeadline(a);
  }
}
